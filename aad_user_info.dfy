/**
 * The user as described by a validated ID token, optionally enriched with the
 * display names of the directory groups the user belongs to.
 *
 * The directory is modelled by the responses it gives, in request order:
 * `directory[0]` answers the first membership request, `directory[k]` the
 * k-th follow-up request. A page links to a next page exactly when another
 * response follows it, so the last page of the sequence has no next link; an
 * empty sequence means the first request returned no page at all.
 */
module UserInfos {
  import opened Wrappers
  import opened HostApi

  const OID_CLAIM: string := "oid"
  const USERNAME_CLAIM: string := "preferred_username"
  const EMAIL_CLAIM: string := "email"
  const DISPLAYNAME_CLAIM: string := "name"
  const NO_NAME: string := "No name provided"

  /** The string-valued claims of the ID token; an absent key is a null claim. */
  type Claims = map<string, string>

  predicate NonEmptyClaim(claims: Claims, key: string) {
    key in claims && claims[key] != ""
  }

  /**
   * The source reads the email claim's length when preferred_username is null
   * or empty, so one of the two must be there.
   */
  predicate DisplayIdDefined(claims: Claims) {
    NonEmptyClaim(claims, USERNAME_CLAIM) || EMAIL_CLAIM in claims
  }

  /**
   * The display id: preferred_username, else a non-empty email; `None` when
   * neither applies, in which case the field is left as it was.
   */
  function ResolveDisplayId(claims: Claims): (r: Option<string>)
    requires DisplayIdDefined(claims)
    ensures NonEmptyClaim(claims, USERNAME_CLAIM) ==> r == Some(claims[USERNAME_CLAIM])
    ensures !NonEmptyClaim(claims, USERNAME_CLAIM) ==>
              (r.Some? <==> claims[EMAIL_CLAIM] != "") && (r.Some? ==> r.value == claims[EMAIL_CLAIM])
    ensures r.Some? ==> r.value != ""
  {
    if NonEmptyClaim(claims, USERNAME_CLAIM) then Some(claims[USERNAME_CLAIM])
    else if claims[EMAIL_CLAIM] != "" then Some(claims[EMAIL_CLAIM])
    else None
  }

  /** The display name: the name claim when non-empty, else the fixed sentinel. Never empty. */
  function ResolveDisplayName(claims: Claims): (r: string)
    ensures r != ""
    ensures NonEmptyClaim(claims, DISPLAYNAME_CLAIM) ==> r == claims[DISPLAYNAME_CLAIM]
    ensures !NonEmptyClaim(claims, DISPLAYNAME_CLAIM) ==> r == NO_NAME
  {
    if NonEmptyClaim(claims, DISPLAYNAME_CLAIM) then claims[DISPLAYNAME_CLAIM] else NO_NAME
  }

  /**
   * The email: a non-empty email claim, else preferred_username whenever it is
   * present (even empty); `None` when neither applies.
   */
  function ResolveUserEmail(claims: Claims): (r: Option<string>)
    ensures NonEmptyClaim(claims, EMAIL_CLAIM) ==> r == Some(claims[EMAIL_CLAIM])
    ensures !NonEmptyClaim(claims, EMAIL_CLAIM) ==>
              (r.Some? <==> USERNAME_CLAIM in claims) && (r.Some? ==> r.value == claims[USERNAME_CLAIM])
  {
    if NonEmptyClaim(claims, EMAIL_CLAIM) then Some(claims[EMAIL_CLAIM])
    else if USERNAME_CLAIM in claims then Some(claims[USERNAME_CLAIM])
    else None
  }

  /**
   * The four token shapes the tests use: every claim; no name; no email;
   * no preferred_username.
   */
  lemma ClaimFallbackExamples()
    ensures var all := map[EMAIL_CLAIM := "john.doe@example.com", DISPLAYNAME_CLAIM := "John Doe",
                           USERNAME_CLAIM := "john.doe@example.net"];
            ResolveDisplayId(all) == Some("john.doe@example.net")
            && ResolveDisplayName(all) == "John Doe"
            && ResolveUserEmail(all) == Some("john.doe@example.com")
    ensures ResolveDisplayName(map[EMAIL_CLAIM := "john.doe@example.com", USERNAME_CLAIM := "john.doe@example.net"])
            == NO_NAME
    ensures ResolveUserEmail(map[DISPLAYNAME_CLAIM := "John Doe", USERNAME_CLAIM := "john.doe@example.net"])
            == Some("john.doe@example.net")
    ensures ResolveDisplayId(map[EMAIL_CLAIM := "john.doe@example.com", DISPLAYNAME_CLAIM := "John Doe"])
            == Some("john.doe@example.com")
  {
  }

  /** What one membership request yields. */
  datatype Response =
    | Page(names: seq<Option<string>>)   // the display names on the page; a group may have none
    | NoPage                             // the request returned null
    | Failed(message: string)            // the request threw a Graph service exception

  /** The non-null display names in a list of groups. */
  function NamesOn(names: seq<Option<string>>): (r: set<string>) {
    if |names| == 0 then {}
    else
      var last := names[|names| - 1];
      NamesOn(names[..|names| - 1]) + (if last.Some? then {last.value} else {})
  }

  lemma {:induction false} NamesOnExactly(names: seq<Option<string>>)
    ensures forall x :: x in NamesOn(names) <==> Some(x) in names
  {
    if |names| > 0 {
      var init := names[..|names| - 1];
      NamesOnExactly(init);
      assert names == init + [names[|names| - 1]];
    }
  }

  /** Adds `groups` to a successful result; a failure stays a failure. */
  function AddTo(groups: set<string>, r: Result<set<string>, string>): (out: Result<set<string>, string>) {
    match r
    case Ok(s) => Ok(groups + s)
    case Err(m) => Err(m)
  }

  lemma AddToTwice(a: set<string>, b: set<string>, r: Result<set<string>, string>)
    ensures AddTo(a, AddTo(b, r)) == AddTo(a + b, r)
    ensures AddTo({}, r) == r
  {
    if r.Ok? {
      assert {} + r.value == r.value;
      assert a + (b + r.value) == (a + b) + r.value;
    }
  }

  /**
   * The outcome of walking the chain of membership pages: the union of the
   * names on every page up to the one without a next link, or the failure of
   * the first request that failed.
   */
  function MemberGroups(d: seq<Response>): (r: Result<set<string>, string>) {
    if |d| == 0 then Ok({})
    else match d[0]
      case NoPage => Ok({})
      case Failed(m) => Err(m)
      case Page(ns) => if |d| == 1 then Ok(NamesOn(ns)) else AddTo(NamesOn(ns), MemberGroups(d[1..]))
  }

  /** The index of the first response that is not a page, or |d| when all are pages. */
  function Stop(d: seq<Response>): (k: nat)
    ensures k <= |d|
    ensures forall j :: 0 <= j < k ==> d[j].Page?
    ensures k < |d| ==> !d[k].Page?
  {
    if |d| == 0 || !d[0].Page? then 0 else 1 + Stop(d[1..])
  }

  /**
   * All or nothing: the walk fails exactly when the walk reaches a failed
   * request; otherwise it yields exactly the non-null names on the pages
   * before the walk stopped, each once.
   */
  lemma {:induction false} MemberGroupsExactly(d: seq<Response>)
    ensures MemberGroups(d).Err? <==> Stop(d) < |d| && d[Stop(d)].Failed?
    ensures MemberGroups(d).Ok? ==>
              forall x :: x in MemberGroups(d).value <==>
                exists j :: 0 <= j < Stop(d) && d[j].Page? && Some(x) in d[j].names
  {
    if |d| > 0 && d[0].Page? {
      var ns := d[0].names;
      NamesOnExactly(ns);
      if |d| > 1 {
        MemberGroupsExactly(d[1..]);
        assert Stop(d) == 1 + Stop(d[1..]);
        if MemberGroups(d).Ok? {
          forall x | x in MemberGroups(d).value
            ensures exists j :: 0 <= j < Stop(d) && d[j].Page? && Some(x) in d[j].names
          {
            if x !in NamesOn(ns) {
              var j :| 0 <= j < Stop(d[1..]) && d[1..][j].Page? && Some(x) in d[1..][j].names;
              assert d[j + 1] == d[1..][j];
            }
          }
          forall x | exists j :: 0 <= j < Stop(d) && d[j].Page? && Some(x) in d[j].names
            ensures x in MemberGroups(d).value
          {
            var j :| 0 <= j < Stop(d) && d[j].Page? && Some(x) in d[j].names;
            if j > 0 {
              assert d[1..][j - 1] == d[j];
            }
          }
        }
      } else {
        assert Stop(d) == 1;
      }
    }
  }

  /** Two pages, one group each: both names, once each; a failure on the second of three pages: nothing. */
  lemma PaginationExamples()
    ensures MemberGroups([Page([Some("Developers")]), Page([Some("Administrators")])])
            == Ok({"Developers", "Administrators"})
    ensures MemberGroups([Page([Some("Developers"), None, Some("Developers")])]) == Ok({"Developers"})
    ensures MemberGroups([Page([Some("Developers")]), Failed("HTTP 503"), Page([Some("Administrators")])]).Err?
  {
    var p1: seq<Option<string>> := [Some("Developers")];
    assert NamesOn(p1) == {"Developers"} by { assert p1[..0] == []; }
    var p2: seq<Option<string>> := [Some("Administrators")];
    assert NamesOn(p2) == {"Administrators"} by { assert p2[..0] == []; }
    var d := [Page(p1), Page(p2)];
    assert d[1..] == [Page(p2)];
    assert MemberGroups(d[1..]) == Ok({"Administrators"});
    assert MemberGroups(d) == AddTo({"Developers"}, Ok({"Administrators"}));
    assert {"Developers"} + {"Administrators"} == {"Developers", "Administrators"};
    var p3: seq<Option<string>> := [Some("Developers"), None, Some("Developers")];
    assert p3[..2][..1] == p1 && p3[..2] == [Some("Developers"), None];
    assert NamesOn(p3[..2]) == {"Developers"};
    assert NamesOn(p3) == {"Developers"};
    var e := [Page(p1), Failed("HTTP 503"), Page(p2)];
    assert e[1..][0] == Failed("HTTP 503");
  }

  class AadUserInfo {
    var userOid: Option<string>
    var displayId: Option<string>
    var displayName: Option<string>
    var userEmail: Option<string>
    /** Empty until a group fetch completes. */
    var userGroups: set<string>

    /**
     * Reads the claims, then fetches the groups only when `wantGroups` is
     * TRUE (a null flag counts as false). A failed fetch leaves the group set
     * empty and does not fail construction.
     */
    constructor (claims: Claims, directory: seq<Response>, wantGroups: Option<bool>)
      requires DisplayIdDefined(claims)
      ensures userOid == (if OID_CLAIM in claims then Some(claims[OID_CLAIM]) else None)
      ensures displayId == ResolveDisplayId(claims)
      ensures displayName == Some(ResolveDisplayName(claims))
      ensures userEmail == ResolveUserEmail(claims)
      ensures wantGroups != Some(true) ==> userGroups == {}
      ensures wantGroups == Some(true) ==>
                userGroups == (match MemberGroups(directory) case Ok(s) => s case Err(_) => {})
    {
      userOid := None;
      displayId := None;
      displayName := None;
      userEmail := None;
      userGroups := {};
      new;
      ParseToken(claims);
      if wantGroups == Some(true) {
        ProcessGroups(directory);
      }
    }

    /** Sets each field from its claim fallback chain; a chain that yields nothing leaves its field alone. */
    method ParseToken(claims: Claims)
      requires DisplayIdDefined(claims)
      modifies this`userOid, this`displayId, this`displayName, this`userEmail
      ensures userOid == (if OID_CLAIM in claims then Some(claims[OID_CLAIM]) else old(userOid))
      ensures displayId == (if ResolveDisplayId(claims).Some? then ResolveDisplayId(claims) else old(displayId))
      ensures displayName == Some(ResolveDisplayName(claims))
      ensures userEmail == (if ResolveUserEmail(claims).Some? then ResolveUserEmail(claims) else old(userEmail))
    {
      if OID_CLAIM in claims {
        userOid := Some(claims[OID_CLAIM]);
      }

      if NonEmptyClaim(claims, USERNAME_CLAIM) {
        displayId := Some(claims[USERNAME_CLAIM]);
      } else if claims[EMAIL_CLAIM] != "" {
        displayId := Some(claims[EMAIL_CLAIM]);
      }

      if NonEmptyClaim(claims, DISPLAYNAME_CLAIM) {
        displayName := Some(claims[DISPLAYNAME_CLAIM]);
      } else {
        displayName := Some(NO_NAME);
      }

      if NonEmptyClaim(claims, EMAIL_CLAIM) {
        userEmail := Some(claims[EMAIL_CLAIM]);
      } else if USERNAME_CLAIM in claims {
        userEmail := Some(claims[USERNAME_CLAIM]);
      }
    }

    /** Replaces the group set by the fetched one, or keeps it when any request failed. */
    method ProcessGroups(directory: seq<Response>)
      modifies this`userGroups
      ensures userGroups == (match MemberGroups(directory) case Ok(s) => s case Err(_) => old(userGroups))
    {
      if |directory| > 0 && directory[0].Failed? {
        // the first request threw: logged, not fatal
        return;
      }
      var parsed := ProcessMemberGroupCollection(directory);
      if parsed.Ok? {
        userGroups := parsed.value;
      }
    }

    /**
     * Walks the pages from the one already fetched, adding every non-null
     * display name, and requests the next page until a page has no next link
     * or a request returns no page. A failing request ends the walk with
     * that failure.
     */
    method ProcessMemberGroupCollection(directory: seq<Response>) returns (r: Result<set<string>, string>)
      requires |directory| == 0 || !directory[0].Failed?
      ensures r == MemberGroups(directory)
    {
      var parsedUserGroups: set<string> := {};
      var i := 0;
      assert directory[0..] == directory;
      AddToTwice({}, {}, MemberGroups(directory));
      while i < |directory| && directory[i].Page?
        invariant 0 <= i <= |directory|
        invariant i < |directory| ==> !directory[i].Failed?
        invariant MemberGroups(directory) == AddTo(parsedUserGroups, MemberGroups(directory[i..]))
        decreases |directory| - i
      {
        var groupList := directory[i].names;
        ghost var before := parsedUserGroups;
        for j := 0 to |groupList|
          invariant parsedUserGroups == before + NamesOn(groupList[..j])
        {
          assert groupList[..j + 1][..j] == groupList[..j];
          if groupList[j].Some? {
            parsedUserGroups := parsedUserGroups + {groupList[j].value};
          }
        }
        assert groupList[..|groupList|] == groupList;
        if i + 1 == |directory| {
          // no next page
          assert MemberGroups(directory) == Ok(parsedUserGroups);
          break;
        }
        assert directory[i..][1..] == directory[i + 1..];
        AddToTwice(before, NamesOn(groupList), MemberGroups(directory[i + 1..]));
        i := i + 1;
        if directory[i].Failed? {
          return Err(directory[i].message);
        }
      }
      return Ok(parsedUserGroups);
    }

    /**
     * The host identity for this user: provider login, name and email copied
     * from the resolved fields; the groups set only when asked for.
     */
    function BuildUserId(includeGroups: bool): (r: UserIdentity)
      reads this
      ensures r.providerLogin == displayId && r.name == displayName && r.email == userEmail
      ensures r.login == None
      ensures r.groups.Some? <==> includeGroups
      ensures includeGroups ==> r.groups.value == userGroups
    {
      var builder := EmptyIdentity.(providerLogin := displayId, name := displayName, email := userEmail);
      if includeGroups then builder.(groups := Some(userGroups)) else builder
    }
  }
}
