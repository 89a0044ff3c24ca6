/**
  The dashboard's top bar (`src/components/dashboard/DashboardHeader.tsx`): the
  low-stock notifications, the role-dependent profile title and role label, the
  avatar initials, the storage path of an uploaded avatar, and the profile
  update written on save.
*/
module DashboardHeader {
  import opened Common
  import Catalog

  // ---------------------------------------------------------------- low stock

  /** `{id, name, sku, stock, reorderLevel}` as the notification list holds it. */
  datatype LowStockItem = LowStockItem(id: string, name: Option<string>, sku: Option<string>, stock: Option<int>, reorderLevel: Option<int>)

  function ToItem(entry: (string, Catalog.Product)): (x: LowStockItem)
    ensures x.id == entry.0 && x.stock == entry.1.stock && x.reorderLevel == entry.1.reorderLevel
  {
    LowStockItem(entry.0, entry.1.name, entry.1.sku, entry.1.stock, entry.1.reorderLevel)
  }

  /** `(stock ?? 0) <= (reorderLevel ?? 10)`: `??` replaces only a missing value, so a level of 0 stays 0. */
  predicate IsLow(x: LowStockItem) {
    x.stock.GetOr(0) <= x.reorderLevel.GetOr(10)
  }

  function Items(entries: seq<(string, Catalog.Product)>): (r: seq<LowStockItem>)
    ensures |r| == |entries|
    ensures forall i :: 0 <= i < |entries| ==> r[i] == ToItem(entries[i])
  {
    if entries == [] then [] else Items(entries[..|entries| - 1]) + [ToItem(entries[|entries| - 1])]
  }

  /**
    The list built from a `products` snapshot (its entries in order), `[]` when
    nothing is stored or the read fails.
  */
  function LowStock(snapshot: Option<seq<(string, Catalog.Product)>>): seq<LowStockItem>
  {
    if snapshot.None? then [] else Filter(Items(snapshot.value), IsLow)
  }

  /**
    An item is listed exactly when it is built from a stored product whose stock
    is at or below its reorder level (10 when missing); the order of the
    products is kept.
  */
  lemma LowStockFacts(snapshot: Option<seq<(string, Catalog.Product)>>)
    ensures snapshot.None? ==> LowStock(snapshot) == []
    ensures snapshot.Some? ==> SubSeq(LowStock(snapshot), Items(snapshot.value))
    ensures snapshot.Some? ==> forall x :: x in LowStock(snapshot) <==>
              (exists i :: 0 <= i < |snapshot.value| && x == ToItem(snapshot.value[i])) && IsLow(x)
  {
    if snapshot.Some? {
      FilterSubSeq(Items(snapshot.value), IsLow);
      FilterMembers(Items(snapshot.value), IsLow);
    }
  }

  /** A stored reorder level of 0 is kept: only a stock of 0 or less is then low. */
  lemma ZeroReorderLevelKept(id: string, p: Catalog.Product)
    requires p.reorderLevel == Some(0) && p.stock.Some?
    ensures IsLow(ToItem((id, p))) <==> p.stock.value <= 0
  {
  }

  /** The notification menu: nothing while loading, otherwise the first six low-stock items. */
  function MenuEntries(lowStock: seq<LowStockItem>, loading: bool): (r: seq<LowStockItem>)
    ensures |r| <= 6
    ensures loading ==> r == []
    ensures !loading ==> |r| == MinInt(6, |lowStock|) && r == lowStock[..|r|]
  {
    if loading then [] else Take(lowStock, 6)
  }

  // ---------------------------------------------------------------- role

  /** The roles shown as administrators. */
  const AdminRoles := ["vice_president", "officer", "secretary", "treasurer", "pio"]

  /** `String(systemRole || "").toLowerCase()`. */
  function RoleLc(systemRole: Option<string>): string {
    ToLower(OrElse(systemRole, ""))
  }

  /** `titleByRole`. */
  function TitleByRole(systemRole: Option<string>): (t: string)
    ensures t == "Super Admin's Profile" <==> RoleLc(systemRole) == "super_admin"
    ensures t == "Admin User Profile" <==> RoleLc(systemRole) in AdminRoles
    ensures t == "Member/Visitors User Profile" <==> RoleLc(systemRole) != "super_admin" && RoleLc(systemRole) !in AdminRoles
  {
    var r := RoleLc(systemRole);
    if r == "super_admin" then "Super Admin's Profile"
    else if r in AdminRoles then "Admin User Profile"
    else "Member/Visitors User Profile"
  }

  /** The role line under the user's name. */
  function RoleLabel(systemRole: Option<string>): (l: string)
    ensures l == "Super Admin" <==> RoleLc(systemRole) == "super_admin"
    ensures l == "Admin" <==> RoleLc(systemRole) in AdminRoles
    ensures l == "Member" <==> RoleLc(systemRole) != "super_admin" && RoleLc(systemRole) !in AdminRoles
  {
    var r := RoleLc(systemRole);
    if r == "super_admin" then "Super Admin"
    else if r in AdminRoles then "Admin"
    else "Member"
  }

  /** The dialog title and the role label always name the same tier. */
  lemma TitleAgreesWithLabel(systemRole: Option<string>)
    ensures TitleByRole(systemRole) == "Super Admin's Profile" <==> RoleLabel(systemRole) == "Super Admin"
    ensures TitleByRole(systemRole) == "Admin User Profile" <==> RoleLabel(systemRole) == "Admin"
    ensures TitleByRole(systemRole) == "Member/Visitors User Profile" <==> RoleLabel(systemRole) == "Member"
  {
  }

  /** The role test ignores letter case. */
  lemma RoleIgnoresCase(a: string, b: string)
    requires ToLower(a) == ToLower(b)
    ensures TitleByRole(Some(a)) == TitleByRole(Some(b)) && RoleLabel(Some(a)) == RoleLabel(Some(b))
  {
    if a == "" || b == "" {
      assert |ToLower(a)| == |a| && |ToLower(b)| == |b|;
    }
  }

  // ---------------------------------------------------------------- initials

  /** `parts.map(s => s[0]).join("")`: an empty part contributes nothing. */
  function FirstChars(parts: seq<string>): string
  {
    if parts == [] then ""
    else (if parts[0] == "" then "" else [parts[0][0]]) + FirstChars(parts[1..])
  }

  /** `text.split(" ").map(s => s[0]).join("") || "CO"`, with `text = fullName || email || ""`. */
  function Initials(fullName: Option<string>, email: Option<string>): (r: string)
    ensures r != ""
    ensures ' ' !in r
  {
    var text := OrElse(fullName, OrElse(email, ""));
    FirstCharsNoSpace(Split(text, ' '));
    var s := FirstChars(Split(text, ' '));
    if s == "" then "CO" else s
  }

  lemma {:induction false} FirstCharsNoSpace(parts: seq<string>)
    requires forall k :: 0 <= k < |parts| ==> ' ' !in parts[k]
    ensures ' ' !in FirstChars(parts)
  {
    if parts != [] {
      FirstCharsNoSpace(parts[1..]);
      if parts[0] != "" {
        assert parts[0][0] in parts[0];
      }
    }
  }

  /**
    The initials are empty, and "CO" is shown, exactly when the text is all
    spaces; otherwise a text that starts with a letter other than a space
    starts its initials with that letter.
  */
  lemma {:induction false} FirstCharsOfSplit(s: string)
    ensures FirstChars(Split(s, ' ')) == "" <==> forall i :: 0 <= i < |s| ==> s[i] == ' '
    ensures s != "" && s[0] != ' ' ==> FirstChars(Split(s, ' ')) != "" && FirstChars(Split(s, ' '))[0] == s[0]
    decreases |s|
  {
    if s != [] {
      var rest := Split(s[1..], ' ');
      FirstCharsOfSplit(s[1..]);
      if s[0] == ' ' {
        assert Split(s, ' ') == [""] + rest;
        assert ([""] + rest)[1..] == rest;
        assert forall i :: 1 <= i < |s| ==> s[i] == s[1..][i - 1];
      } else {
        var parts := [[s[0]] + rest[0]] + rest[1..];
        assert Split(s, ' ') == parts;
        assert parts[0][0] == s[0];
        assert FirstChars(parts) == [s[0]] + FirstChars(parts[1..]);
      }
    }
  }

  /** The shown initials: "CO" exactly when the name (or e-mail) text is all spaces. */
  lemma InitialsFacts(fullName: Option<string>, email: Option<string>)
    ensures var text := OrElse(fullName, OrElse(email, ""));
            (Initials(fullName, email) == "CO" && FirstChars(Split(text, ' ')) == "")
              <==> forall i :: 0 <= i < |text| ==> text[i] == ' '
    ensures var text := OrElse(fullName, OrElse(email, ""));
            text != "" && text[0] != ' ' ==> Initials(fullName, email)[0] == text[0]
  {
    FirstCharsOfSplit(OrElse(fullName, OrElse(email, "")));
  }

  // ---------------------------------------------------------------- avatar

  /** `(type || 'image/jpeg').includes('png') ? 'png' : (type || '').includes('webp') ? 'webp' : 'jpg'`. */
  function AvatarExt(mimeType: Option<string>): (ext: string)
    ensures ext == "png" <==> Truthy(mimeType) && Contains(mimeType.value, "png")
    ensures ext == "webp" <==> !(Truthy(mimeType) && Contains(mimeType.value, "png")) && Truthy(mimeType) && Contains(mimeType.value, "webp")
    ensures ext == "jpg" <==> !(Truthy(mimeType) && (Contains(mimeType.value, "png") || Contains(mimeType.value, "webp")))
  {
    JpegHasNoPng();
    if Contains(OrElse(mimeType, "image/jpeg"), "png") then "png"
    else if Contains(OrElse(mimeType, ""), "webp") then "webp"
    else "jpg"
  }

  /** The fallback type names no png, so a missing type gives jpg. */
  lemma JpegHasNoPng()
    ensures !Contains("image/jpeg", "png")
    ensures !Contains("", "webp")
  {
    var s := "image/jpeg";
    forall i | 0 <= i <= |s| - 3 ensures !OccursAt(s, "png", i) {
      assert i == 0 || i == 1 || i == 2 || i == 3 || i == 4 || i == 5 || i == 6 || i == 7;
      assert s[i..i + 3][0] == s[i] && s[i..i + 3][1] == s[i + 1];
    }
    ContainsAt(s, "png");
  }

  /** `profiles/<uid>.<ext>`. */
  function ProfilePath(uid: string, ext: string): (path: string)
    ensures StartsWith(path, "profiles/" + uid + ".")
    ensures path[|"profiles/" + uid + "."|..] == ext
    ensures EndsWith(path, "." + ext)
  {
    var p := "profiles/" + uid + "." + ext;
    assert p[|p| - |"." + ext|..] == "." + ext;
    p
  }

  /** The storage path of a user's avatar: under `profiles/`, named by the uid, with the type's extension. */
  function AvatarPath(uid: string, mimeType: Option<string>): string
  {
    ProfilePath(uid, AvatarExt(mimeType))
  }

  // ---------------------------------------------------------------- saving the profile

  /** The stored user as the header reads it. */
  datatype HeaderUser = HeaderUser(uid: Option<string>, fullName: Option<string>, email: Option<string>, phone: Option<string>, systemRole: Option<string>, avatarUrl: Option<string>)

  /** `{fullName, phone, avatarUrl?}`. */
  datatype ProfileUpdate = ProfileUpdate(fullName: string, phone: string, avatarUrl: Option<string>)

  /**
    The avatar URL on save: nothing without a chosen file; otherwise the URL the
    storage bucket gave, else the one the upload endpoint gave, else the
    preview, else nothing. `fromStorage` and `fromServer` are those uploads'
    outcomes, `None` or `""` when they failed.
  */
  function AvatarUrl(hasFile: bool, fromStorage: Option<string>, fromServer: Option<string>, preview: string): (u: Option<string>)
    ensures !hasFile ==> u.None?
    ensures u.Some? ==> u.value != ""
    ensures hasFile && Truthy(fromStorage) ==> u == fromStorage
    ensures hasFile && !Truthy(fromStorage) && Truthy(fromServer) ==> u == fromServer
    ensures hasFile && !Truthy(fromStorage) && !Truthy(fromServer) ==> u == (if preview != "" then Some(preview) else None)
  {
    if !hasFile then None
    else if Truthy(fromStorage) then fromStorage
    else if Truthy(fromServer) then fromServer
    else if preview != "" then Some(preview)
    else None
  }

  /** The record written to `users/<uid>`: always the name and phone, the avatar only when there is one. */
  function Updates(fullName: string, phone: string, avatarUrl: Option<string>): (u: ProfileUpdate)
    ensures u.fullName == fullName && u.phone == phone
    ensures u.avatarUrl.Some? <==> Truthy(avatarUrl)
    ensures u.avatarUrl.Some? ==> u.avatarUrl == avatarUrl
  {
    ProfileUpdate(fullName, phone, if Truthy(avatarUrl) then avatarUrl else None)
  }

  /** The header's state. */
  class Header {
    var user: Option<HeaderUser>
    var lowStock: seq<LowStockItem>
    var profileOpen: bool

    constructor(stored: Option<HeaderUser>)
      ensures user == stored && lowStock == [] && !profileOpen
    {
      user, lowStock, profileOpen := stored, [], false;
    }

    /** A `products` snapshot arrives (or its read fails). */
    method Refresh(snapshot: Option<seq<(string, Catalog.Product)>>)
      modifies this
      ensures lowStock == LowStock(snapshot)
      ensures forall x :: x in lowStock ==> IsLow(x)
      ensures user == old(user) && profileOpen == old(profileOpen)
    {
      LowStockFacts(snapshot);
      lowStock := LowStock(snapshot);
    }

    /**
      `saveProfile`: without a signed-in uid nothing is written. Otherwise the
      update is sent; when the write succeeds the local user takes the new name,
      phone and avatar (if any) and the dialog closes, and when it fails
      nothing changes.
    */
    method SaveProfile(fullName: string, phone: string, hasFile: bool, fromStorage: Option<string>, fromServer: Option<string>,
                       preview: string, writeFails: bool) returns (sent: Option<ProfileUpdate>)
      modifies this
      ensures old(user).None? || !Truthy(old(user).value.uid) ==> sent.None? && user == old(user) && profileOpen == old(profileOpen)
      ensures old(user).Some? && Truthy(old(user).value.uid) ==>
                var url := AvatarUrl(hasFile, fromStorage, fromServer, preview);
                sent == Some(Updates(fullName, phone, url))
                && (writeFails ==> user == old(user) && profileOpen == old(profileOpen))
                && (!writeFails ==> !profileOpen && user == Some(old(user).value.(fullName := Some(fullName), phone := Some(phone),
                                                   avatarUrl := if url.Some? then url else old(user).value.avatarUrl)))
      ensures lowStock == old(lowStock)
    {
      if user.None? || !Truthy(user.value.uid) {
        return None;
      }
      var url := AvatarUrl(hasFile, fromStorage, fromServer, preview);
      sent := Some(Updates(fullName, phone, url));
      if writeFails {
        return;
      }
      user := Some(user.value.(fullName := Some(fullName), phone := Some(phone),
                               avatarUrl := if url.Some? then url else user.value.avatarUrl));
      profileOpen := false;
    }
  }
}
