/** The mock session store: AuthProvider keeps the signed-in user and a
    loading flag, mirrors the user into browser storage under one key, and
    derives a display name from the email address on login. */
module AuthContext {
  import opened Shared
  import opened Text
  import opened Session

  const SessionKey: string := "legalvision_user"
  const FallbackName: string := "Arun Perera"
  const DummyId: string := "usr_001"
  const DummyRole: string := "Legal Analyst"
  const DummyFirm: string := "Perera & Associates"

  // ---------------------------------------------------------------------------
  // Display name derived from the email address
  // ---------------------------------------------------------------------------

  /** The text before the first '@' (all of it when there is none). */
  function LocalPart(email: string): (r: string)
    ensures |r| <= |email| && r == email[..|r|]
    ensures '@' !in r
    ensures |r| < |email| ==> email[|r|] == '@'
  {
    var parts := Split(email, '@');
    assert parts[0] in parts;
    SplitFirst(email, '@');
    parts[0]
  }

  /** The first piece Split returns is the text before the first separator. */
  lemma SplitFirst(s: string, c: char)
    ensures Split(s, c)[0] == s[..IndexOf(s, c)]
  {
  }

  function CapitalizeAll(segs: seq<string>): (r: seq<string>)
    ensures |r| == |segs|
    ensures forall i :: 0 <= i < |segs| ==> r[i] == Capitalize(segs[i])
  {
    if segs == [] then [] else [Capitalize(segs[0])] + CapitalizeAll(segs[1..])
  }

  /** The capitalised dot-separated segments of the local part, joined with
      single spaces. */
  function JoinedName(email: string): string
  {
    Join(CapitalizeAll(Split(LocalPart(email), '.')), " ")
  }

  /** The name login gives the user: the joined segments, or the fixed
      fallback when they come out empty. */
  function DerivedName(email: string): (r: string)
    ensures r != ""
    ensures r == FallbackName <==> JoinedName(email) == "" || JoinedName(email) == FallbackName
  {
    var joined := JoinedName(email);
    if joined == "" then FallbackName else joined
  }

  /** The joined name is empty exactly when the local part is, so the
      fallback is used exactly for an empty local part. */
  lemma JoinedNameEmpty(email: string)
    ensures JoinedName(email) == "" <==> LocalPart(email) == ""
  {
    var local := LocalPart(email);
    var segs := Split(local, '.');
    var words := CapitalizeAll(segs);
    if local == "" {
      assert IndexOf(local, '.') == 0;
      assert segs == [""];
      assert words == [""];
    } else if |segs| >= 2 {
      JoinLength(words, " ");
    } else {
      assert Join(segs, ".") == local;
      assert segs[0] == local;
    }
  }

  /** Every part of a split is free of any character the text is free of. */
  lemma {:induction false} SplitPartsFree(s: string, c: char, d: char)
    requires d !in s
    ensures forall p :: p in Split(s, c) ==> d !in p
    decreases |s|
  {
    var k := IndexOf(s, c);
    if k < |s| {
      assert d !in s[k + 1..];
      SplitPartsFree(s[k + 1..], c, d);
      SplitAt(s, c, k);
    } else {
      assert s[..k] == s;
    }
  }

  /** When the local part has no spaces, splitting the derived name on
      spaces gives back one word per dot-separated segment, each the segment
      with its first character uppercased. */
  lemma DerivedNameWords(email: string)
    requires LocalPart(email) != "" && ' ' !in LocalPart(email)
    ensures var segs := Split(LocalPart(email), '.');
      var words := Split(DerivedName(email), ' ');
      |words| == |segs| && |words| == Occurrences(LocalPart(email), '.') + 1 &&
      forall i :: 0 <= i < |segs| ==>
        |words[i]| == |segs[i]| && (segs[i] != [] ==> words[i][0] == UpperChar(segs[i][0]) && words[i][1..] == segs[i][1..])
  {
    var local := LocalPart(email);
    var segs := Split(local, '.');
    var words := CapitalizeAll(segs);
    JoinedNameEmpty(email);
    SplitPartsFree(local, '.', ' ');
    forall w | w in words ensures ' ' !in w {
      var i :| 0 <= i < |words| && words[i] == w;
      assert segs[i] in segs;
      forall j | 0 <= j < |w| ensures w[j] != ' ' {
        if j > 0 {
          assert w[j] == segs[i][j];
        }
      }
    }
    SplitJoin(words, ' ');
  }

  /** An email with nothing before its '@' gets the fallback name. */
  lemma DerivedNameFallbackExample()
    ensures DerivedName("@example.com") == FallbackName
  {
    assert LocalPart("@example.com") == "";
    JoinedNameEmpty("@example.com");
  }

  /** The record login builds. */
  function LoginRecord(email: string, now: string): User
  {
    User(DummyId, DerivedName(email), email, DummyRole, DummyFirm, None, now)
  }

  // ---------------------------------------------------------------------------
  // Reading the stored session at start-up
  // ---------------------------------------------------------------------------

  datatype Restoration =
    | NoSession          // nothing stored, or the empty string
    | Restored(u: User)  // a record in the layout login writes
    | Malformed          // JSON.parse would throw

  /** What start-up finds under the session key. */
  function Restore(stored: Option<string>): (r: Restoration)
    ensures r.NoSession? <==> stored == None || stored == Some("")
    ensures r.Restored? ==> stored.Some? && Decode(stored.value) == Some(r.u)
    ensures r.Malformed? ==> stored.Some? && Decode(stored.value) == None
  {
    match stored
    case None => NoSession
    case Some(text) =>
      if text == "" then NoSession
      else match Decode(text)
        case None => Malformed
        case Some(u) => Restored(u)
  }

  function Lookup(items: map<string, string>, key: string): Option<string>
  {
    if key in items then Some(items[key]) else None
  }

  /** Whatever login stored is read back at the next start-up as the same
      user, and an empty store means no session. */
  lemma RestoreAfterLogin(u: User)
    ensures Restore(Some(Encode(u))) == Restored(u)
    ensures Restore(None) == NoSession
  {
    DecodeEncode(u);
    assert Encode(u)[0] == '{';
  }

  /** The store as login leaves it is read back at start-up as the user
      login set, whatever else the store holds. */
  lemma LoginThenStartUp(items: map<string, string>, email: string, now: string)
    ensures var u := LoginRecord(email, now);
      Restore(Lookup(items[SessionKey := Encode(u)], SessionKey)) == Restored(u)
  {
    var u := LoginRecord(email, now);
    assert Lookup(items[SessionKey := Encode(u)], SessionKey) == Some(Encode(u));
    RestoreAfterLogin(u);
  }

  // ---------------------------------------------------------------------------
  // The provider
  // ---------------------------------------------------------------------------

  /** Browser storage: string values under string keys. */
  class LocalStorage {
    var items: map<string, string>

    constructor(initial: map<string, string>)
      ensures items == initial
    {
      items := initial;
    }

    method GetItem(key: string) returns (r: Option<string>)
      ensures r == Lookup(items, key)
    {
      r := if key in items then Some(items[key]) else None;
    }

    method SetItem(key: string, value: string)
      modifies this
      ensures items == old(items)[key := value]
    {
      items := items[key := value];
    }

    method RemoveItem(key: string)
      modifies this
      ensures items == old(items) - {key}
    {
      items := items - {key};
    }
  }

  class AuthProvider {
    var user: Option<User>
    var isLoading: bool
    const storage: LocalStorage

    /** A fresh provider: no user, loading. */
    constructor(storage: LocalStorage)
      ensures this.storage == storage
      ensures user == None && isLoading
    {
      this.storage := storage;
      user := None;
      isLoading := true;
    }

    predicate IsAuthenticated()
      reads this
    {
      user.Some?
    }

    /** The start-up effect. A stored record is adopted and loading ends;
        with nothing stored loading just ends; a malformed record makes
        JSON.parse throw, which leaves the effect before loading ends. */
    method Initialize() returns (threw: bool)
      modifies this
      ensures var found := Restore(Lookup(storage.items, SessionKey));
        && (threw <==> found.Malformed?)
        && (found.Restored? ==> user == Some(found.u))
        && (!found.Restored? ==> user == old(user))
        && isLoading == (threw && old(isLoading))
    {
      var stored := storage.GetItem(SessionKey);
      var found := Restore(stored);
      match found {
        case Malformed =>
          return true;
        case Restored(u) =>
          user := Some(u);
        case NoSession =>
      }
      isLoading := false;
      threw := false;
    }

    /** Any email and password are accepted: the record built from the
        email is stored and becomes the user, and the call resolves true. */
    method Login(email: string, password: string, now: string) returns (ok: bool)
      modifies this, storage
      ensures ok
      ensures user == Some(LoginRecord(email, now))
      ensures storage.items == old(storage.items)[SessionKey := Encode(LoginRecord(email, now))]
      ensures isLoading == old(isLoading)
    {
      var dummy := LoginRecord(email, now);
      storage.SetItem(SessionKey, Encode(dummy));
      user := Some(dummy);
      ok := true;
    }

    /** The stored record is removed and the user cleared. */
    method Logout()
      modifies this, storage
      ensures user == None && !IsAuthenticated()
      ensures storage.items == old(storage.items) - {SessionKey}
      ensures Lookup(storage.items, SessionKey) == None
      ensures isLoading == old(isLoading)
    {
      storage.RemoveItem(SessionKey);
      user := None;
    }
  }
}
