/**
 * GET /api/admin/crown-status: the admin view of crownStatus/current. It
 * works on the raw document, whatever its field names: it picks the crown
 * holder's uid from a chain of likely fields or, failing that, from any field
 * whose name ends in "uid", loads that user's profile and resolves the
 * champion to show, preferring the snapshot fields of the crown document to
 * the live profile. Nothing is written.
 */
module CrownStatusView {
  import opened Wrappers
  import opened Text
  import opened AdminAuth

  /** A field value as the route sees it. */
  datatype Value =
    | Null
    | Bool(b: bool)
    | Num(n: int)
    | Str(s: string)
    | Other  // an object, an array or a Timestamp: truthy and not a string

  /** JavaScript truthiness; an absent field reads as undefined, which is falsy. */
  predicate Truthy(v: Option<Value>) {
    && v.Some?
    && match v.value
       case Null => false
       case Bool(b) => b
       case Num(n) => n != 0
       case Str(s) => s != ""
       case Other => true
  }

  predicate Nullish(v: Option<Value>) {
    v.None? || v.value.Null?
  }

  /** `a || b`. */
  function Or(a: Option<Value>, b: Value): (r: Value)
    ensures Truthy(a) ==> Some(r) == a
    ensures !Truthy(a) ==> r == b
  {
    if Truthy(a) then a.value else b
  }

  /** One field of a document, in the order Object.entries lists them. */
  datatype Entry = Entry(key: string, value: Value)

  type Doc = seq<Entry>

  /** The position of the first entry with this key, or |doc|. */
  function FindKey(doc: Doc, key: string): (i: nat)
    ensures i <= |doc|
    ensures forall j :: 0 <= j < i ==> doc[j].key != key
    ensures i < |doc| ==> doc[i].key == key
    decreases |doc|
  {
    if doc == [] || doc[0].key == key then 0 else 1 + FindKey(doc[1..], key)
  }

  /** doc[key]: None when the document has no such field. */
  function Get(doc: Doc, key: string): Option<Value> {
    var i := FindKey(doc, key);
    if i < |doc| then Some(doc[i].value) else None
  }

  /** The fields extractUid tries first, in order. */
  const DirectKeys: seq<string> := ["activeUid", "uid", "winnerUid", "currentUid", "userId", "targetUid", "crownedUid"]

  /** The position of the first key whose field is present and not null, or |keys|. */
  function FirstPresent(doc: Doc, keys: seq<string>): (i: nat)
    ensures i <= |keys|
    ensures forall j :: 0 <= j < i ==> Nullish(Get(doc, keys[j]))
    ensures i < |keys| ==> !Nullish(Get(doc, keys[i]))
    decreases |keys|
  {
    if keys == [] || !Nullish(Get(doc, keys[0])) then 0 else 1 + FirstPresent(doc, keys[1..])
  }

  /** `crown.activeUid ?? crown.uid ?? ... ?? crown.crownedUid ?? null`; None is null. */
  function DirectValue(doc: Doc): Option<Value> {
    var i := FirstPresent(doc, DirectKeys);
    if i < |DirectKeys| then Get(doc, DirectKeys[i]) else None
  }

  /** `/uid$/i`: the key ends in "uid" in any mix of ASCII case. */
  predicate EndsWithUid(k: string) {
    && |k| >= 3
    && (k[|k| - 3] == 'u' || k[|k| - 3] == 'U')
    && (k[|k| - 2] == 'i' || k[|k| - 2] == 'I')
    && (k[|k| - 1] == 'd' || k[|k| - 1] == 'D')
  }

  /** An entry the fallback scan accepts. */
  predicate UidEntry(e: Entry) {
    e.value.Str? && EndsWithUid(e.key) && !Blank(e.value.s)
  }

  /** The fallback scan from the i-th entry on. */
  function ScanFrom(doc: Doc, i: nat): (r: Option<string>)
    requires i <= |doc|
    ensures r.Some? ==> exists j :: i <= j < |doc| && UidEntry(doc[j]) && doc[j].value == Str(r.value) &&
                                    forall m :: i <= m < j ==> !UidEntry(doc[m])
    ensures r.None? <==> forall j :: i <= j < |doc| ==> !UidEntry(doc[j])
    decreases |doc| - i
  {
    if i == |doc| then None
    else if UidEntry(doc[i]) then Some(doc[i].value.s)
    else ScanFrom(doc, i + 1)
  }

  /** extractUid: a non-blank string from the direct chain, else the first accepted entry, else null. */
  function UidOf(doc: Doc): (r: Option<string>)
    ensures r.Some? ==> !Blank(r.value)
    ensures r.Some? ==>
              exists j :: 0 <= j < |doc| && doc[j].value == Str(r.value) && (doc[j].key in DirectKeys || EndsWithUid(doc[j].key))
    ensures DirectValue(doc).Some? && DirectValue(doc).value.Str? && !Blank(DirectValue(doc).value.s) ==>
              r == Some(DirectValue(doc).value.s)
    ensures !(DirectValue(doc).Some? && DirectValue(doc).value.Str? && !Blank(DirectValue(doc).value.s)) ==>
              r == ScanFrom(doc, 0)
  {
    var direct := DirectValue(doc);
    if direct.Some? && direct.value.Str? && !Blank(direct.value.s) then
      var k := DirectKeys[FirstPresent(doc, DirectKeys)];
      assert doc[FindKey(doc, k)].value == Str(direct.value.s);
      Some(direct.value.s)
    else ScanFrom(doc, 0)
  }

  /** A non-blank string in activeUid is the answer, whatever else the document holds. */
  lemma ActiveUidWins(doc: Doc, s: string)
    requires Get(doc, "activeUid") == Some(Str(s)) && !Blank(s)
    ensures UidOf(doc) == Some(s)
  {
    assert FirstPresent(doc, DirectKeys) == 0;
  }

  /** No uid is found exactly when the direct chain gives no non-blank string and no entry is accepted by the scan. */
  lemma NoUidExactly(doc: Doc)
    ensures UidOf(doc).None? <==>
              !(DirectValue(doc).Some? && DirectValue(doc).value.Str? && !Blank(DirectValue(doc).value.s)) &&
              forall j :: 0 <= j < |doc| ==> !UidEntry(doc[j])
  {
  }

  /**
   * As written, `??` stops at the first field that is present and not null,
   * string or not: an activeUid that holds anything but a string sends the
   * search straight to the scan, past every other direct key.
   */
  lemma NonStringActiveUidSkipsChain(doc: Doc)
    requires Get(doc, "activeUid").Some? && !Get(doc, "activeUid").value.Null? && !Get(doc, "activeUid").value.Str?
    ensures UidOf(doc) == ScanFrom(doc, 0)
  {
    assert FirstPresent(doc, DirectKeys) == 0;
  }

  /** So a numeric activeUid hides a userId string, which the scan does not find either: "userId" does not end in "uid". */
  lemma NumericActiveUidHidesUserId()
    ensures UidOf([Entry("activeUid", Num(7)), Entry("userId", Str("u1"))]) == None
  {
    var doc := [Entry("activeUid", Num(7)), Entry("userId", Str("u1"))];
    assert Get(doc, "activeUid") == Some(Num(7));
    NonStringActiveUidSkipsChain(doc);
    assert "userId"[3] == 'r';
    assert !UidEntry(doc[0]) && !UidEntry(doc[1]);
  }

  /** extractUid's `for ... of` loop over the entries. */
  method ScanForUid(crown: Doc) returns (uid: Option<string>)
    ensures uid == ScanFrom(crown, 0)
  {
    var i := 0;
    while i < |crown|
      invariant 0 <= i <= |crown|
      invariant ScanFrom(crown, i) == ScanFrom(crown, 0)
    {
      var e := crown[i];
      if e.value.Str? && EndsWithUid(e.key) && Trim(e.value.s) != "" {
        return Some(e.value.s);
      }
      i := i + 1;
    }
    return None;
  }

  /** extractUid. */
  method ExtractUid(crown: Doc) returns (uid: Option<string>)
    ensures uid == UidOf(crown)
  {
    var direct := DirectValue(crown);
    if direct.Some? && direct.value.Str? && Trim(direct.value.s) != "" {
      return Some(direct.value.s);
    }
    uid := ScanForUid(crown);
  }

  /** The profile fields the view copies from users/{uid}, each `x || ''`, with displayName behind fullName. */
  datatype Profile = Profile(fullName: Value, email: Value, photoUrl: Value, bio: Value)

  /** The user shown: the uid, and the profile when users/{uid} exists. */
  datatype SafeUser = SafeUser(uid: string, profile: Option<Profile>)

  datatype Champion = Champion(name: Value, bio: Value, photoUrl: Value)

  datatype StatusReply =
    | NoCrown                       // { crown: null, debug: { reason: "Document does not exist" } }
    | CrownView(raw: Doc, activeUid: Option<string>, user: Option<SafeUser>,
                snapshot: Champion, userChampion: Champion, resolved: Champion)
    | ServerFailure(error: string)  // status 500

  function ProfileOf(u: Doc): Profile {
    Profile(Or(Get(u, "fullName"), Or(Get(u, "displayName"), Str(""))),
            Or(Get(u, "email"), Str("")), Or(Get(u, "photoUrl"), Str("")), Or(Get(u, "bio"), Str("")))
  }

  /** What the public homepage shows, from the crown document's own snapshot fields. */
  function SnapshotChampion(raw: Doc): Champion {
    Champion(Or(Get(raw, "currentChampionName"), Str("")), Or(Get(raw, "currentChampionBio"), Str("")),
             Or(Get(raw, "currentChampionPhotoUrl"), Str("")))
  }

  /** The live profile; all "" when there is no user or the user document does not exist. */
  function UserChampion(user: Option<SafeUser>): Champion {
    if user.Some? && user.value.profile.Some? then
      var p := user.value.profile.value;
      Champion(Or(Some(p.fullName), Str("")), Or(Some(p.bio), Str("")), Or(Some(p.photoUrl), Str("")))
    else Champion(Str(""), Str(""), Str(""))
  }

  /** Field by field, the snapshot's value when truthy, else the live one when truthy, else "". */
  function Resolve(snapshot: Champion, live: Champion): (r: Champion)
    ensures Truthy(Some(snapshot.name)) ==> r.name == snapshot.name
    ensures !Truthy(Some(snapshot.name)) && Truthy(Some(live.name)) ==> r.name == live.name
    ensures !Truthy(Some(snapshot.name)) && !Truthy(Some(live.name)) ==> r.name == Str("")
    ensures Truthy(Some(snapshot.bio)) ==> r.bio == snapshot.bio
    ensures !Truthy(Some(snapshot.bio)) && Truthy(Some(live.bio)) ==> r.bio == live.bio
    ensures !Truthy(Some(snapshot.bio)) && !Truthy(Some(live.bio)) ==> r.bio == Str("")
    ensures Truthy(Some(snapshot.photoUrl)) ==> r.photoUrl == snapshot.photoUrl
    ensures !Truthy(Some(snapshot.photoUrl)) && Truthy(Some(live.photoUrl)) ==> r.photoUrl == live.photoUrl
    ensures !Truthy(Some(snapshot.photoUrl)) && !Truthy(Some(live.photoUrl)) ==> r.photoUrl == Str("")
    ensures Truthy(Some(r.name)) <==> Truthy(Some(snapshot.name)) || Truthy(Some(live.name))
    ensures Truthy(Some(r.bio)) <==> Truthy(Some(snapshot.bio)) || Truthy(Some(live.bio))
    ensures Truthy(Some(r.photoUrl)) <==> Truthy(Some(snapshot.photoUrl)) || Truthy(Some(live.photoUrl))
  {
    Champion(Or(Some(snapshot.name), Or(Some(live.name), Str(""))),
             Or(Some(snapshot.bio), Or(Some(live.bio), Str(""))),
             Or(Some(snapshot.photoUrl), Or(Some(live.photoUrl), Str(""))))
  }

  function ErrorText(message: string): string {
    if message == "" then "Server error" else message
  }

  /**
   * The whole GET. `crownRead` is what reading crownStatus/current gave (the
   * document, None when it does not exist, or the error it threw);
   * `userRead` what reading users/{uid} gives.
   */
  function CrownStatusGet(header: Option<string>, env: Option<string>, verify: string -> Result<string, string>,
                          crownRead: Result<Option<Doc>, string>, userRead: string -> Result<Option<Doc>, string>)
    : StatusReply
  {
    var admin := RequireAdmin(header, env, verify);
    if admin.Failure? then ServerFailure(ErrorText(admin.error))
    else if crownRead.Failure? then ServerFailure(ErrorText(crownRead.error))
    else if crownRead.value.None? then NoCrown
    else View(crownRead.value.value, userRead)
  }

  /** The user named by the crown document, with their profile when users/{uid} exists. */
  function LoadUser(uid: Option<string>, userRead: string -> Result<Option<Doc>, string>): Result<Option<SafeUser>, string> {
    if uid.None? then Success(None)
    else match userRead(uid.value)
         case Failure(m) => Failure(m)
         case Success(None) => Success(Some(SafeUser(uid.value, None)))
         case Success(Some(u)) => Success(Some(SafeUser(uid.value, Some(ProfileOf(u)))))
  }

  /** The reply once the crown document has been read. */
  function View(raw: Doc, userRead: string -> Result<Option<Doc>, string>): StatusReply {
    var uid := UidOf(raw);
    var user := LoadUser(uid, userRead);
    if user.Failure? then ServerFailure(ErrorText(user.error))
    else
      var snapshot := SnapshotChampion(raw);
      var live := UserChampion(user.value);
      CrownView(raw, uid, user.value, snapshot, live, Resolve(snapshot, live))
  }

  /** The handler: extractUid's loop, then the same reply as CrownStatusGet. */
  method GetCrownStatus(header: Option<string>, env: Option<string>, verify: string -> Result<string, string>,
                        crownRead: Result<Option<Doc>, string>, userRead: string -> Result<Option<Doc>, string>)
    returns (reply: StatusReply)
    ensures reply == CrownStatusGet(header, env, verify, crownRead, userRead)
  {
    var admin := RequireAdmin(header, env, verify);
    if admin.Failure? {
      return ServerFailure(ErrorText(admin.error));
    }
    if crownRead.Failure? {
      return ServerFailure(ErrorText(crownRead.error));
    }
    if crownRead.value.None? {
      return NoCrown;
    }
    var raw := crownRead.value.value;
    var activeUid := ExtractUid(raw);
    var user: Option<SafeUser> := None;
    if activeUid.Some? {
      var snap := userRead(activeUid.value);
      if snap.Failure? {
        return ServerFailure(ErrorText(snap.error));
      }
      if snap.value.Some? {
        user := Some(SafeUser(activeUid.value, Some(ProfileOf(snap.value.value))));
      } else {
        user := Some(SafeUser(activeUid.value, None));
      }
    }
    var snapshot := SnapshotChampion(raw);
    var live := UserChampion(user);
    reply := CrownView(raw, activeUid, user, snapshot, live, Resolve(snapshot, live));
  }

  // ----- What the view guarantees -----

  /**
   * The route's outer shape: a caller requireAdmin rejects, or a failed read
   * of the crown document, gets a 500; a missing document gets `crown: null`;
   * otherwise the reply is the view of the document.
   */
  lemma GetShowsView(header: Option<string>, env: Option<string>, verify: string -> Result<string, string>,
                     crownRead: Result<Option<Doc>, string>, userRead: string -> Result<Option<Doc>, string>)
    ensures var reply := CrownStatusGet(header, env, verify, crownRead, userRead);
            && (RequireAdmin(header, env, verify).Failure? ==> reply.ServerFailure?)
            && (RequireAdmin(header, env, verify).Success? ==>
                  && (crownRead.Failure? ==> reply.ServerFailure?)
                  && (crownRead == Success(None) ==> reply == NoCrown)
                  && (crownRead.Success? && crownRead.value.Some? ==> reply == View(crownRead.value.value, userRead)))
  {
  }

  /**
   * The view loads exactly the user extractUid names, shows them under that
   * uid, and fails with a 500 when reading the user throws.
   */
  lemma ViewShowsExtractedUser(raw: Doc, userRead: string -> Result<Option<Doc>, string>)
    ensures var reply := View(raw, userRead);
            var uid := UidOf(raw);
            && (uid.None? ==> reply.CrownView? && reply.user.None?)
            && (uid.Some? && userRead(uid.value).Failure? ==> reply.ServerFailure?)
            && (uid.Some? && userRead(uid.value).Success? ==>
                  reply.CrownView? && reply.activeUid == uid && reply.user.Some? && reply.user.value.uid == uid.value &&
                  (reply.user.value.profile.Some? <==> userRead(uid.value).value.Some?))
  {
  }

  /**
   * The resolved champion prefers the crown document's snapshot: a truthy
   * snapshot name is shown as is, and only an empty one lets the live
   * profile's fullName (or displayName) through.
   */
  lemma ResolvedPrefersSnapshot(raw: Doc, uid: string, u: Doc, userRead: string -> Result<Option<Doc>, string>)
    requires UidOf(raw) == Some(uid) && userRead(uid) == Success(Some(u))
    ensures var reply := View(raw, userRead);
            && reply.CrownView?
            && (Truthy(Get(raw, "currentChampionName")) ==> Some(reply.resolved.name) == Get(raw, "currentChampionName"))
            && (!Truthy(Get(raw, "currentChampionName")) && Truthy(Get(u, "fullName")) ==>
                  Some(reply.resolved.name) == Get(u, "fullName"))
            && (!Truthy(Get(raw, "currentChampionName")) && !Truthy(Get(u, "fullName")) && Truthy(Get(u, "displayName")) ==>
                  Some(reply.resolved.name) == Get(u, "displayName"))
  {
    var snapshot := SnapshotChampion(raw);
    var live := UserChampion(Some(SafeUser(uid, Some(ProfileOf(u)))));
    assert LoadUser(Some(uid), userRead) == Success(Some(SafeUser(uid, Some(ProfileOf(u)))));
    NamePrefersSnapshot(raw, u, Resolve(snapshot, live).name);
  }

  /** The resolved name: the snapshot's, else the profile's fullName, else its displayName. */
  lemma NamePrefersSnapshot(raw: Doc, u: Doc, name: Value)
    requires name == Or(Get(raw, "currentChampionName"), Or(Some(Or(Get(u, "fullName"), Or(Get(u, "displayName"), Str("")))), Str("")))
    ensures Truthy(Get(raw, "currentChampionName")) ==> Some(name) == Get(raw, "currentChampionName")
    ensures !Truthy(Get(raw, "currentChampionName")) && Truthy(Get(u, "fullName")) ==> Some(name) == Get(u, "fullName")
    ensures !Truthy(Get(raw, "currentChampionName")) && !Truthy(Get(u, "fullName")) && Truthy(Get(u, "displayName")) ==>
              Some(name) == Get(u, "displayName")
  {
  }

  /** With no user document (or no uid), the resolved champion is the snapshot, with every falsy field shown as "". */
  lemma NoProfileMeansSnapshot(raw: Doc, userRead: string -> Result<Option<Doc>, string>)
    requires UidOf(raw).None? || userRead(UidOf(raw).value) == Success(None)
    ensures var reply := View(raw, userRead);
            reply.CrownView? && reply.resolved == reply.snapshot &&
            reply.userChampion == Champion(Str(""), Str(""), Str(""))
  {
    var s := SnapshotChampion(raw);
    assert Or(Some(s.name), Str("")) == s.name;
    assert Or(Some(s.bio), Str("")) == s.bio;
    assert Or(Some(s.photoUrl), Str("")) == s.photoUrl;
  }
}
