/**
  The route activity tracker of the app shell (`src/App.tsx`): each time the
  path changes, a signed-in user whose system role is one of the seven
  officer roles gets one entry appended under `activityLogs/<uid>` and their
  `lastActiveAt` stamped; anyone else leaves no trace.
*/
module RouteTracker {
  import opened Common

  const TrackedRoles := {"super_admin", "president", "vice_president", "officer", "secretary", "treasurer", "pio"}

  /** The stored current user, as far as the tracker reads it. */
  datatype TrackedUser = TrackedUser(uid: string, systemRole: Option<string>)

  datatype LogEntry = LogEntry(path: string, ts: string)

  /** `allowed.has(String(u.systemRole || "").toLowerCase())`. */
  predicate Tracked(u: TrackedUser) {
    ToLower(OrElse(u.systemRole, "")) in TrackedRoles
  }

  /** Members and users without a system role are never tracked; the role test ignores letter case. */
  lemma TrackedFacts(u: TrackedUser, v: TrackedUser)
    ensures !Truthy(u.systemRole) ==> !Tracked(u)
    ensures u.systemRole == Some("member") ==> !Tracked(u)
    ensures Truthy(u.systemRole) && Truthy(v.systemRole) && ToLower(u.systemRole.value) == ToLower(v.systemRole.value) ==>
              (Tracked(u) <==> Tracked(v))
  {
    if u.systemRole == Some("member") {
      assert ToLower("member") == "member";
    }
  }

  /**
    The paths the effect runs for while the browser visits `paths` in turn:
    the first, and every path that differs from the one before it.
  */
  function Changes(paths: seq<string>): (r: seq<string>)
    ensures |r| <= |paths|
    ensures paths != [] ==> r != [] && r[0] == paths[0] && r[|r| - 1] == paths[|paths| - 1]
  {
    if |paths| == 0 then []
    else if |paths| == 1 then [paths[0]]
    else
      var n := |paths|;
      Changes(paths[..n - 1]) + (if paths[n - 1] != paths[n - 2] then [paths[n - 1]] else [])
  }

  /** No path is logged twice in a row, and every logged path was visited in that order. */
  lemma {:induction false} ChangesFacts(paths: seq<string>)
    ensures forall i :: 0 <= i < |Changes(paths)| - 1 ==> Changes(paths)[i] != Changes(paths)[i + 1]
    ensures SubSeq(Changes(paths), paths)
  {
    var n := |paths|;
    if n == 0 {
    } else if n == 1 {
      assert SubSeq([paths[0]][1..], paths[1..]);
    } else {
      var front := paths[..n - 1];
      ChangesFacts(front);
      var c := Changes(front);
      assert c[|c| - 1] == paths[n - 2];
      assert front + [paths[n - 1]] == paths;
      if paths[n - 1] != paths[n - 2] {
        assert Changes(paths) == c + [paths[n - 1]];
        SubSeqSnoc(c, front, paths[n - 1]);
      } else {
        assert Changes(paths) == c;
        SubSeqExtend(c, front, paths[n - 1]);
      }
    }
  }

  /** A sub-list stays a sub-list when both lists grow by the same entry. */
  lemma {:induction false} SubSeqSnoc<T>(xs: seq<T>, ys: seq<T>, y: T)
    requires SubSeq(xs, ys)
    ensures SubSeq(xs + [y], ys + [y])
    decreases |ys|
  {
    if xs == [] {
      if ys == [] {
        assert SubSeq([y][1..], [y][1..]);
      } else {
        SubSeqSnoc(xs, ys[1..], y);
        assert (ys + [y])[1..] == ys[1..] + [y];
      }
    } else if xs[0] == ys[0] && SubSeq(xs[1..], ys[1..]) {
      SubSeqSnoc(xs[1..], ys[1..], y);
      assert (xs + [y])[1..] == xs[1..] + [y];
      assert (ys + [y])[1..] == ys[1..] + [y];
    } else {
      SubSeqSnoc(xs, ys[1..], y);
      assert (ys + [y])[1..] == ys[1..] + [y];
    }
  }

  /** A sub-list stays a sub-list when only the larger list grows. */
  lemma {:induction false} SubSeqExtend<T>(xs: seq<T>, ys: seq<T>, y: T)
    requires SubSeq(xs, ys)
    ensures SubSeq(xs, ys + [y])
    decreases |ys|
  {
    if xs != [] {
      assert (ys + [y])[1..] == ys[1..] + [y];
      if xs[0] == ys[0] && SubSeq(xs[1..], ys[1..]) {
        SubSeqExtend(xs[1..], ys[1..], y);
      } else {
        SubSeqExtend(xs, ys[1..], y);
      }
    }
  }

  /** The log entries for a run of paths, all stamped from `ts` in order. */
  function Entries(paths: seq<string>, ts: seq<string>): (r: seq<LogEntry>)
    requires |ts| == |paths|
    ensures |r| == |paths|
    ensures forall i :: 0 <= i < |paths| ==> r[i] == LogEntry(paths[i], ts[i])
  {
    if paths == [] then [] else Entries(paths[..|paths| - 1], ts[..|ts| - 1]) + [LogEntry(paths[|paths| - 1], ts[|ts| - 1])]
  }

  /** The `activityLogs` and `users` nodes the tracker writes. */
  class Tracker {
    var logs: map<string, seq<LogEntry>>
    var lastActiveAt: map<string, string>

    constructor(logs0: map<string, seq<LogEntry>>, lastActiveAt0: map<string, string>)
      ensures logs == logs0 && lastActiveAt == lastActiveAt0
    {
      logs, lastActiveAt := logs0, lastActiveAt0;
    }

    /** The entries logged so far for `uid`. */
    function LogOf(uid: string): seq<LogEntry>
      reads this
    {
      if uid in logs then logs[uid] else []
    }

    /**
      The effect for one path: nothing without a user or for an untracked
      role; otherwise one entry `(path, ts)` is appended to the user's log and
      `lastActiveAt` set to `ts`.
    */
    method OnPath(u: Option<TrackedUser>, path: string, ts: string)
      modifies this
      ensures u.None? || !Tracked(u.value) ==> logs == old(logs) && lastActiveAt == old(lastActiveAt)
      ensures u.Some? && Tracked(u.value) ==>
                logs == old(logs)[u.value.uid := old(LogOf(u.value.uid)) + [LogEntry(path, ts)]]
                && lastActiveAt == old(lastActiveAt)[u.value.uid := ts]
    {
      if u.None? {
        return;
      }
      if !Tracked(u.value) {
        return;
      }
      var uid := u.value.uid;
      logs := logs[uid := LogOf(uid) + [LogEntry(path, ts)]];
      lastActiveAt := lastActiveAt[uid := ts];
    }

    /**
      A visit of `paths` in turn by the same user: the effect runs once per
      path change, so a tracked user's log grows by exactly the entries of
      `Changes(paths)`, and nobody else's log changes.
    */
    method Visit(u: Option<TrackedUser>, paths: seq<string>, ts: seq<string>)
      requires |ts| == |paths|
      modifies this
      ensures u.None? || !Tracked(u.value) ==> logs == old(logs) && lastActiveAt == old(lastActiveAt)
      ensures u.Some? && Tracked(u.value) && paths != [] ==>
                logs == old(logs)[u.value.uid := old(LogOf(u.value.uid)) + Logged(paths, ts)]
      ensures u.Some? && Tracked(u.value) && paths != [] ==>
                lastActiveAt == old(lastActiveAt)[u.value.uid := LastStamp(paths, ts)]
      ensures paths == [] ==> logs == old(logs) && lastActiveAt == old(lastActiveAt)
    {
      if u.None? || !Tracked(u.value) {
        return;
      }
      var uid := u.value.uid;
      ghost var m0 := logs;
      ghost var a0 := lastActiveAt;
      ghost var base := LogOf(uid);
      var i := 0;
      while i < |paths|
        invariant 0 <= i <= |paths|
        invariant i == 0 ==> logs == m0
        invariant i > 0 ==> logs == m0[uid := base + Logged(paths[..i], ts[..i])]
        invariant i == 0 ==> lastActiveAt == a0
        invariant i > 0 ==> lastActiveAt == a0[uid := LastStamp(paths[..i], ts[..i])]
      {
        ghost var before := Logged(paths[..i], ts[..i]);
        assert i == 0 ==> paths[..i] == [] && ts[..i] == [] && before == [];
        StepChanges(paths, ts, i);
        LastStampStep(paths, ts, i);
        if i == 0 || paths[i] != paths[i - 1] {
          if i > 0 {
            StampTwice(a0, uid, LastStamp(paths[..i], ts[..i]), ts[i]);
          }
          OnPath(u, paths[i], ts[i]);
          GrowLog(m0, uid, base, before, LogEntry(paths[i], ts[i]), i == 0);
          assert Logged(paths[..i + 1], ts[..i + 1]) == before + [LogEntry(paths[i], ts[i])];
        } else {
          assert Logged(paths[..i + 1], ts[..i + 1]) == before;
        }
        i := i + 1;
      }
      assert paths[..i] == paths && ts[..i] == ts;
    }
  }

  /** Stamping `uid` again overwrites whatever an earlier stamp of `uid` left. */
  lemma StampTwice(a0: map<string, string>, uid: string, t0: string, t: string)
    ensures a0[uid := t0][uid := t] == a0[uid := t]
  {
  }

  /** Appending to the log kept under `uid` in a map that already holds `base + before` there. */
  lemma GrowLog(m0: map<string, seq<LogEntry>>, uid: string, base: seq<LogEntry>, before: seq<LogEntry>, e: LogEntry,
                first: bool)
    requires first ==> before == [] && base == (if uid in m0 then m0[uid] else [])
    ensures var m := if first then m0 else m0[uid := base + before];
            m[uid := (if uid in m then m[uid] else []) + [e]] == m0[uid := base + (before + [e])]
  {
    assert base + before + [e] == base + (before + [e]);
    assert first ==> before + [e] == [e];
  }

  /** The entries logged for a visit of `paths` with stamps `ts`. */
  function Logged(paths: seq<string>, ts: seq<string>): seq<LogEntry>
    requires |ts| == |paths|
  {
    Entries(Changes(paths), Stamps(paths, ts))
  }

  /** The stamps of the runs that happen: `ts[i]` for each path that is a change. */
  function Stamps(paths: seq<string>, ts: seq<string>): (r: seq<string>)
    requires |ts| == |paths|
    ensures |r| == |Changes(paths)|
  {
    if |paths| == 0 then []
    else if |paths| == 1 then [ts[0]]
    else
      var n := |paths|;
      Stamps(paths[..n - 1], ts[..n - 1]) + (if paths[n - 1] != paths[n - 2] then [ts[n - 1]] else [])
  }

  /** The stamp of the last run of the effect: what `lastActiveAt` holds after the visit. */
  function LastStamp(paths: seq<string>, ts: seq<string>): string
    requires |ts| == |paths| && paths != []
  {
    Stamps(paths, ts)[|Stamps(paths, ts)| - 1]
  }

  /** One more visited path moves the last stamp to its own exactly when it is a change. */
  lemma LastStampStep(paths: seq<string>, ts: seq<string>, i: int)
    requires |ts| == |paths| && 0 <= i < |paths|
    ensures i == 0 || paths[i] != paths[i - 1] ==> LastStamp(paths[..i + 1], ts[..i + 1]) == ts[i]
    ensures i > 0 && paths[i] == paths[i - 1] ==> LastStamp(paths[..i + 1], ts[..i + 1]) == LastStamp(paths[..i], ts[..i])
  {
    var p, t := paths[..i + 1], ts[..i + 1];
    assert p[..i] == paths[..i] && t[..i] == ts[..i];
    if i > 0 {
      assert p[i - 1] == paths[i - 1];
    }
  }

  /** One more visited path adds one entry exactly when it is a change. */
  lemma StepChanges(paths: seq<string>, ts: seq<string>, i: int)
    requires |ts| == |paths| && 0 <= i < |paths|
    ensures Logged(paths[..i + 1], ts[..i + 1]) == Logged(paths[..i], ts[..i])
              + (if i == 0 || paths[i] != paths[i - 1] then [LogEntry(paths[i], ts[i])] else [])
  {
    var p := paths[..i + 1];
    var t := ts[..i + 1];
    assert p[..i] == paths[..i] && t[..i] == ts[..i];
    var before := Entries(Changes(paths[..i]), Stamps(paths[..i], ts[..i]));
    var after := Entries(Changes(p), Stamps(p, t));
    if i == 0 || paths[i] != paths[i - 1] {
      var extra := [LogEntry(paths[i], ts[i])];
      assert |after| == |before| + 1;
      forall k | 0 <= k < |after| ensures after[k] == (before + extra)[k] {
      }
    } else {
      assert Changes(p) == Changes(paths[..i]);
      assert Stamps(p, t) == Stamps(paths[..i], ts[..i]);
    }
  }
}
