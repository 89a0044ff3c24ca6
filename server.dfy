/**
  The Express server's own logic (`backend/src/server.js`): the CORS origin
  allow-list read from a setting, the origin check, and the catch-all 404
  reply.
*/
module Server {
  import opened Common

  const CorsError := "Not allowed by CORS"

  /** The comma-separated entries of the setting (an absent setting reads as the empty text). */
  function Entries(setting: Option<string>): (parts: seq<string>)
    ensures forall k :: 0 <= k < |parts| ==> ',' !in parts[k]
  {
    Split(OrElse(setting, ""), ',')
  }

  /** `parts.map(s => s.trim())`. */
  function TrimAll(parts: seq<string>): (r: seq<string>)
    ensures |r| == |parts|
    ensures forall i :: 0 <= i < |parts| ==> r[i] == Trim(parts[i])
  {
    if parts == [] then [] else TrimAll(parts[..|parts| - 1]) + [Trim(parts[|parts| - 1])]
  }

  /** `allowedOrigins`. */
  function AllowedOrigins(setting: Option<string>): seq<string>
  {
    Filter(TrimAll(Entries(setting)), NonBlank)
  }

  /** The allowed origins are exactly the entries of the setting that are not blank, trimmed. */
  lemma AllowedOriginsFacts(setting: Option<string>)
    ensures forall o :: o in AllowedOrigins(setting) <==>
              o != "" && exists i :: 0 <= i < |Entries(setting)| && o == Trim(Entries(setting)[i])
  {
    TrimmedMembers(Entries(setting));
  }

  lemma TrimmedMembers(parts: seq<string>)
    ensures forall o :: o in Filter(TrimAll(parts), NonBlank) <==>
              o != "" && exists i :: 0 <= i < |parts| && o == Trim(parts[i])
  {
    var trimmed := TrimAll(parts);
    FilterMembers(trimmed, NonBlank);
    forall o | o in Filter(trimmed, NonBlank)
      ensures o != "" && exists i :: 0 <= i < |parts| && o == Trim(parts[i])
    {
      var i :| 0 <= i < |trimmed| && trimmed[i] == o;
      assert o == Trim(parts[i]);
    }
    forall o | o != "" && exists i :: 0 <= i < |parts| && o == Trim(parts[i])
      ensures o in Filter(trimmed, NonBlank)
    {
      var i :| 0 <= i < |parts| && o == Trim(parts[i]);
      assert trimmed[i] == o;
      assert o in trimmed && NonBlank(o);
    }
  }

  /** An allowed origin holds no comma and starts and ends with a character other than whitespace. */
  lemma AllowedOriginsShape(setting: Option<string>)
    ensures forall o :: o in AllowedOrigins(setting) ==> OriginShaped(o)
  {
    var parts := Entries(setting);
    var trimmed := TrimAll(parts);
    FilterMembers(trimmed, NonBlank);
    forall i | 0 <= i < |trimmed| && trimmed[i] != "" ensures OriginShaped(trimmed[i]) {
      EntryShape(parts[i]);
    }
  }

  predicate OriginShaped(o: string) {
    o != "" && ',' !in o && !IsSpace(o[0]) && !IsSpace(o[|o| - 1])
  }

  lemma EntryShape(p: string)
    requires ',' !in p && Trim(p) != ""
    ensures OriginShaped(Trim(p))
  {
    TrimFacts(p);
    var i :| OccursAt(p, Trim(p), i);
    forall j | 0 <= j < |Trim(p)| ensures Trim(p)[j] != ',' {
      assert p[i..i + |Trim(p)|][j] == p[i + j];
    }
  }

  datatype CorsVerdict = Allow | Deny(error: string)

  /**
    The CORS `origin` callback: a request without an origin passes, an empty
    allow-list lets every origin pass, and otherwise an origin passes only
    when it is one of the listed origins exactly.
  */
  function Cors(origin: Option<string>, setting: Option<string>): (v: CorsVerdict)
    ensures v.Deny? ==> v.error == CorsError
  {
    var allowed := AllowedOrigins(setting);
    if !Truthy(origin) then Allow
    else if |allowed| == 0 then Allow
    else if origin.value in allowed then Allow
    else Deny(CorsError)
  }

  /**
    The origin check against the setting itself: an origin passes exactly when
    the request has none, every entry is blank, or it equals an entry that is
    not blank once trimmed.
  */
  lemma CorsFacts(origin: Option<string>, setting: Option<string>)
    ensures Cors(origin, setting) == Allow <==>
              !Truthy(origin)
              || (forall i :: 0 <= i < |Entries(setting)| ==> Trim(Entries(setting)[i]) == "")
              || (exists i :: 0 <= i < |Entries(setting)| && origin.value == Trim(Entries(setting)[i]))
  {
    AllowedOriginsFacts(setting);
    AllowListEmpty(Entries(setting));
  }

  /** The allow-list is empty exactly when every entry is blank. */
  lemma AllowListEmpty(parts: seq<string>)
    ensures |Filter(TrimAll(parts), NonBlank)| == 0 <==> forall i :: 0 <= i < |parts| ==> Trim(parts[i]) == ""
  {
    var allowed := Filter(TrimAll(parts), NonBlank);
    TrimmedMembers(parts);
    if |allowed| != 0 {
      assert allowed[0] in allowed;
    }
    forall i | 0 <= i < |parts| && Trim(parts[i]) != "" ensures Trim(parts[i]) in allowed {
    }
  }

  /** With no setting every origin passes. */
  lemma NoSettingAllowsAll(origin: Option<string>)
    ensures Cors(origin, None) == Allow
  {
    assert Entries(None) == [""];
    assert TrimAll([""]) == [Trim("")];
    assert Trim("") == "";
  }

  /** Once some origin is configured, an origin holding a comma or padded with whitespace never passes. */
  lemma MalformedOriginDenied(origin: string, setting: Option<string>)
    requires |AllowedOrigins(setting)| > 0
    requires origin != "" && (',' in origin || IsSpace(origin[0]) || IsSpace(origin[|origin| - 1]))
    ensures Cors(Some(origin), setting) == Deny(CorsError)
  {
    AllowedOriginsShape(setting);
    assert !OriginShaped(origin);
  }

  /** The catch-all reply for a route nobody handles. */
  datatype NotFoundReply = NotFoundReply(status: int, message: string)

  function RouteNotFound(verb: string, url: string): (r: NotFoundReply)
    ensures r.status == 404
    ensures StartsWith(r.message, "Route not found: ") && EndsWith(r.message, url)
  {
    NotFoundReply(404, "Route not found: " + verb + " " + url)
  }

  /** HTTP verbs hold no space, so the message names the verb and the URL unambiguously. */
  lemma RouteNotFoundInjective(m1: string, u1: string, m2: string, u2: string)
    requires ' ' !in m1 && ' ' !in m2
    requires RouteNotFound(m1, u1) == RouteNotFound(m2, u2)
    ensures m1 == m2 && u1 == u2
  {
    var prefix := "Route not found: ";
    var t1 := m1 + " " + u1;
    var t2 := m2 + " " + u2;
    assert RouteNotFound(m1, u1).message == prefix + t1;
    assert RouteNotFound(m2, u2).message == prefix + t2;
    assert t1 == (prefix + t1)[|prefix|..];
    assert t2 == (prefix + t2)[|prefix|..];
    assert t1 == m1 + [' '] + u1 && t2 == m2 + [' '] + u2;
    SpaceSplit(m1, u1, m2, u2);
  }

  /** Two texts that agree, each a space-free word, a space and a rest, agree word by word. */
  lemma {:induction false} SpaceSplit(a1: string, b1: string, a2: string, b2: string)
    requires ' ' !in a1 && ' ' !in a2
    requires a1 + [' '] + b1 == a2 + [' '] + b2
    ensures a1 == a2 && b1 == b2
    decreases |a1|
  {
    var s := a1 + [' '] + b1;
    var t := a2 + [' '] + b2;
    assert s[0] == (if a1 == [] then ' ' else a1[0]);
    assert t[0] == (if a2 == [] then ' ' else a2[0]);
    if a1 == [] {
      assert a2 == [];
      assert s[1..] == b1 && t[1..] == b2;
    } else {
      assert a2 != [];
      assert a1[0] == a2[0];
      assert s[1..] == a1[1..] + [' '] + b1;
      assert t[1..] == a2[1..] + [' '] + b2;
      assert ' ' !in a1[1..] && ' ' !in a2[1..];
      SpaceSplit(a1[1..], b1, a2[1..], b2);
      assert a1 == [a1[0]] + a1[1..] && a2 == [a2[0]] + a2[1..];
    }
  }
}
