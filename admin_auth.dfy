/**
 * requireAdmin, shared by the admin routes: the token that `/^Bearer (.+)$/`
 * captures from the Authorization header, the identity service that turns the
 * token into a uid (a parameter: the service is not part of this model), and
 * the ADMIN_UIDS list, split on commas, trimmed, with empty entries dropped.
 */
module AdminAuth {
  import opened Wrappers
  import opened Text

  const MissingHeaderError: string := "Missing Authorization header"
  const NotAuthorizedError: string := "Not authorized"

  /** The trimmed, non-empty entries of a split list, in order. */
  function NonBlankEntries(parts: seq<string>): (ids: seq<string>)
    ensures |ids| <= |parts|
    ensures forall id :: id in ids <==> id != [] && exists p :: p in parts && Trim(p) == id
    decreases |parts|
  {
    if parts == [] then []
    else
      var rest := NonBlankEntries(parts[1..]);
      assert forall p :: p in parts <==> p == parts[0] || p in parts[1..];
      (if Trim(parts[0]) == [] then [] else [Trim(parts[0])]) + rest
  }

  /** ADMIN_UIDS, where an unset variable reads as "". */
  function AdminUids(env: Option<string>): seq<string> {
    NonBlankEntries(Split(env.GetOr(""), ','))
  }

  predicate IsAdmin(uid: string, env: Option<string>) {
    uid in AdminUids(env)
  }

  /** With ADMIN_UIDS unset or blank-only, nobody is an admin. */
  lemma NoAdminsWhenUnset(env: Option<string>, uid: string)
    requires env.None? || Blank(env.value)
    ensures !IsAdmin(uid, env)
  {
    var parts := Split(env.GetOr(""), ',');
    forall p | p in parts ensures Trim(p) == [] {
      var i :| 0 <= i < |parts| && parts[i] == p;
      BlankPieces(env.GetOr(""), i);
    }
  }

  /** Every piece of a split of a blank string is blank. */
  lemma {:induction false} BlankPieces(s: string, i: nat)
    requires Blank(s) && i < |Split(s, ',')|
    ensures Blank(Split(s, ',')[i])
    decreases |s|
  {
    if s != [] {
      var rest := Split(s[1..], ',');
      assert IsSpace(s[0]);
      if i == 0 {
        BlankPieces(s[1..], 0);
        assert Split(s, ',')[0] == [s[0]] + rest[0];
      } else {
        BlankPieces(s[1..], i);
      }
    }
  }

  /** An entry with no white space at either end, no comma, and at least one character. */
  predicate CleanUid(id: string) {
    id != [] && ',' !in id && !IsSpace(id[0]) && !IsSpace(id[|id| - 1])
  }

  lemma {:induction false} NonBlankOfClean(ids: seq<string>)
    requires forall i :: 0 <= i < |ids| ==> CleanUid(ids[i])
    ensures NonBlankEntries(ids) == ids
    decreases |ids|
  {
    if ids != [] {
      TrimKeepsTrimmed(ids[0]);
      NonBlankOfClean(ids[1..]);
    }
  }

  /** A list of clean uids written out with commas reads back as exactly that list. */
  lemma AdminUidsOfList(ids: seq<string>)
    requires |ids| >= 1
    requires forall i :: 0 <= i < |ids| ==> CleanUid(ids[i])
    ensures AdminUids(Some(Join(ids, ','))) == ids
  {
    SplitJoin(ids, ',');
    NonBlankOfClean(ids);
  }

  predicate NoLineTerminator(s: string) {
    forall i :: 0 <= i < |s| ==> !IsLineTerminator(s[i])
  }

  /** What `/^Bearer (.+)$/` captures from the header (absent reads as ""); `.` stops at line terminators. */
  function BearerToken(header: Option<string>): (token: Option<string>)
    ensures token.Some? ==> header == Some("Bearer " + token.value) && token.value != [] && NoLineTerminator(token.value)
  {
    var h := header.GetOr("");
    assert |h| > 7 ==> h == h[..7] + h[7..];
    if |h| > 7 && h[..7] == "Bearer " && NoLineTerminator(h[7..]) then Some(h[7..]) else None
  }

  /** Every non-empty single-line token is read back from its header. */
  lemma BearerTokenOfHeader(token: string)
    requires token != [] && NoLineTerminator(token)
    ensures BearerToken(Some("Bearer " + token)) == Some(token)
  {
    var h := "Bearer " + token;
    assert h[..7] == "Bearer " && h[7..] == token;
  }

  /**
   * requireAdmin: the caller's uid, or the message the route's catch turns
   * into a 500. `verify` is the identity service: the uid a token belongs
   * to, or the message it throws.
   */
  function RequireAdmin(header: Option<string>, env: Option<string>, verify: string -> Result<string, string>)
    : (r: Result<string, string>)
    ensures r.Success? ==>
              BearerToken(header).Some? && verify(BearerToken(header).value) == Success(r.value) && IsAdmin(r.value, env)
    ensures BearerToken(header).None? ==> r == Failure(MissingHeaderError)
  {
    var token := BearerToken(header);
    if token.None? then Failure(MissingHeaderError)
    else
      match verify(token.value)
      case Failure(m) => Failure(m)
      case Success(uid) => if IsAdmin(uid, env) then Success(uid) else Failure(NotAuthorizedError)
  }

  /** A listed uid whose token the identity service accepts gets through. */
  lemma ListedAdminPasses(token: string, uid: string, env: Option<string>, verify: string -> Result<string, string>)
    requires token != [] && NoLineTerminator(token)
    requires verify(token) == Success(uid) && IsAdmin(uid, env)
    ensures RequireAdmin(Some("Bearer " + token), env, verify) == Success(uid)
  {
    BearerTokenOfHeader(token);
  }
}
