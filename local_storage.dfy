/** The browser-side preference cache of src/lib/localStorage.ts. `LocalStorageManager` keeps
    two entries of the browser's `localStorage`, one holding the user's preferences and one the
    session metadata, and rewrites them in place. The storage is the `items` field; whether a
    `window` exists is fixed when the manager is made. */
module LocalStorage {
  import opened Common

  datatype Theme = Dark | Light

  /** `UserPreferences`: every field is optional. */
  datatype Prefs = Prefs(email: Option<string>, rememberMe: Option<bool>, theme: Option<Theme>, lastVisited: Option<string>)

  const NoPrefs: Prefs := Prefs(None, None, None, None)

  /** One field of a `Partial<UserPreferences>` argument: absent (`Keep`), or present with a
      value or with `undefined` (`Put(None)`), which the JSON encoding then drops. */
  datatype Patch<T> = Keep | Put(value: Option<T>)

  datatype PrefsPatch = PrefsPatch(email: Patch<string>, rememberMe: Patch<bool>, theme: Patch<Theme>, lastVisited: Patch<string>)

  function Apply<T>(current: Option<T>, p: Patch<T>): Option<T>
  {
    if p.Put? then p.value else current
  }

  /** `{ ...existing, ...prefs }`: every field the patch has overrides, every other field is
      kept. */
  function Merge(existing: Prefs, patch: PrefsPatch): (r: Prefs)
    ensures patch.email.Put? ==> r.email == patch.email.value
    ensures patch.email.Keep? ==> r.email == existing.email
    ensures patch.rememberMe.Put? ==> r.rememberMe == patch.rememberMe.value
    ensures patch.rememberMe.Keep? ==> r.rememberMe == existing.rememberMe
    ensures patch.theme.Put? ==> r.theme == patch.theme.value
    ensures patch.theme.Keep? ==> r.theme == existing.theme
    ensures patch.lastVisited.Put? ==> r.lastVisited == patch.lastVisited.value
    ensures patch.lastVisited.Keep? ==> r.lastVisited == existing.lastVisited
  {
    Prefs(Apply(existing.email, patch.email), Apply(existing.rememberMe, patch.rememberMe),
          Apply(existing.theme, patch.theme), Apply(existing.lastVisited, patch.lastVisited))
  }

  /** Saving the same patch twice is the same as saving it once. */
  lemma MergeIsIdempotent(p: Prefs, patch: PrefsPatch)
    ensures Merge(Merge(p, patch), patch) == Merge(p, patch)
  {
  }

  /** Two saves in a row are one save of the combined patch, the later one winning. */
  lemma MergeComposes(p: Prefs, first: PrefsPatch, second: PrefsPatch)
    ensures Merge(Merge(p, first), second) == Merge(p, PrefsPatch(
      if second.email.Put? then second.email else first.email,
      if second.rememberMe.Put? then second.rememberMe else first.rememberMe,
      if second.theme.Put? then second.theme else first.theme,
      if second.lastVisited.Put? then second.lastVisited else first.lastVisited))
  {
  }

  /** `{ email, rememberMe: true }`. */
  function RememberPatch(email: string): PrefsPatch
  {
    PrefsPatch(Put(Some(email)), Put(Some(true)), Keep, Keep)
  }

  /** `{ email: undefined, rememberMe: false }`. */
  const ClearPatch: PrefsPatch := PrefsPatch(Put(None), Put(Some(false)), Keep, Keep)

  /** `prefs.rememberMe ? prefs.email || null : null`. */
  function Recall(p: Prefs): (r: Option<string>)
    ensures r.Some? <==> p.rememberMe == Some(true) && Truthy(p.email)
    ensures r.Some? ==> r == p.email
  {
    if p.rememberMe == Some(true) && Truthy(p.email) then p.email else None
  }

  /** A remembered non-empty email is recalled, whatever else was stored. */
  lemma RecallAfterRemember(p: Prefs, email: string)
    ensures Recall(Merge(p, RememberPatch(email))) == if email != "" then Some(email) else None
  {
  }

  /** After clearing, nothing is recalled, and the theme and last page are kept. */
  lemma RecallAfterClear(p: Prefs)
    ensures Recall(Merge(p, ClearPatch)) == None
    ensures Merge(p, ClearPatch).theme == p.theme && Merge(p, ClearPatch).lastVisited == p.lastVisited
  {
  }

  /** The session metadata; the dates are instants. */
  datatype SessionRecord = SessionRecord(loginTime: Option<int>, lastActivity: Option<int>)

  /** What a storage entry holds: the JSON text of a preferences object or of a session object,
      or text that is empty or does not parse. */
  datatype Stored = PrefsJson(prefs: Prefs) | SessionJson(session: SessionRecord) | Unparseable

  const PrefsKey: string := "license_manager_user_prefs"
  const SessionKey: string := "license_manager_session"

  /** `getUserPreferences()`: without a window, with nothing stored, or with text that does not
      parse, the empty preferences. */
  function ReadPrefs(hasWindow: bool, items: map<string, Stored>): (r: Prefs)
    ensures !hasWindow || PrefsKey !in items ==> r == NoPrefs
    ensures hasWindow && PrefsKey in items && items[PrefsKey].PrefsJson? ==> r == items[PrefsKey].prefs
    ensures hasWindow && PrefsKey in items && !items[PrefsKey].PrefsJson? ==> r == NoPrefs
  {
    if !hasWindow || PrefsKey !in items then NoPrefs
    else match items[PrefsKey]
      case PrefsJson(p) => p
      case SessionJson(_) => NoPrefs   // an object with none of the preference fields
      case Unparseable => NoPrefs
  }

  /** `getSessionMetadata()`: without a window, with nothing stored, or with text that does not
      parse, `null`. */
  function ReadSession(hasWindow: bool, items: map<string, Stored>): (r: Option<SessionRecord>)
    ensures !hasWindow || SessionKey !in items ==> r.None?
    ensures hasWindow && SessionKey in items && items[SessionKey].SessionJson? ==> r == Some(items[SessionKey].session)
    ensures hasWindow && SessionKey in items && items[SessionKey].Unparseable? ==> r.None?
  {
    if !hasWindow || SessionKey !in items then None
    else match items[SessionKey]
      case SessionJson(s) => Some(s)
      case PrefsJson(_) => Some(SessionRecord(None, None))   // an object with neither date
      case Unparseable => None
  }

  /** Writing the preference entry leaves the session metadata as it was, and conversely. */
  lemma {:induction false} EntriesAreIndependent(hasWindow: bool, items: map<string, Stored>, p: Prefs, s: SessionRecord)
    ensures ReadSession(hasWindow, items[PrefsKey := PrefsJson(p)]) == ReadSession(hasWindow, items)
    ensures ReadPrefs(hasWindow, items[SessionKey := SessionJson(s)]) == ReadPrefs(hasWindow, items)
  {
    assert PrefsKey != SessionKey by {
      assert PrefsKey[16] != SessionKey[16];
    }
  }

  class LocalStorageManager {
    const hasWindow: bool
    var items: map<string, Stored>

    constructor (hasWindow: bool, items: map<string, Stored>)
      ensures this.hasWindow == hasWindow && this.items == items
    {
      this.hasWindow := hasWindow;
      this.items := items;
    }

    method GetUserPreferences() returns (p: Prefs)
      ensures p == ReadPrefs(hasWindow, items)
    {
      if !hasWindow || PrefsKey !in items {
        return NoPrefs;
      }
      match items[PrefsKey] {
        case PrefsJson(stored) => p := stored;
        case SessionJson(_) => p := NoPrefs;
        case Unparseable => p := NoPrefs;
      }
    }

    /** Reads the stored preferences, merges the patch over them and writes the result back. */
    method SaveUserPreferences(patch: PrefsPatch)
      modifies this
      ensures items == if hasWindow then old(items)[PrefsKey := PrefsJson(Merge(ReadPrefs(hasWindow, old(items)), patch))]
                       else old(items)
      ensures ReadPrefs(hasWindow, items) == if hasWindow then Merge(ReadPrefs(hasWindow, old(items)), patch) else NoPrefs
      ensures ReadSession(hasWindow, items) == ReadSession(hasWindow, old(items))
    {
      if !hasWindow {
        return;
      }
      var existing := GetUserPreferences();
      var updated := Merge(existing, patch);
      EntriesAreIndependent(hasWindow, items, updated, SessionRecord(None, None));
      items := items[PrefsKey := PrefsJson(updated)];
    }

    /** Writes only the preferences entry; every other entry stays as it was. */
    method RememberLoginEmail(email: string)
      modifies this
      ensures items == if hasWindow then old(items)[PrefsKey := PrefsJson(Merge(ReadPrefs(hasWindow, old(items)), RememberPatch(email)))]
                       else old(items)
      ensures hasWindow ==> ReadPrefs(hasWindow, items) == Merge(ReadPrefs(hasWindow, old(items)), RememberPatch(email))
      ensures hasWindow ==> Recall(ReadPrefs(hasWindow, items)) == if email != "" then Some(email) else None
      ensures ReadSession(hasWindow, items) == ReadSession(hasWindow, old(items))
    {
      SaveUserPreferences(RememberPatch(email));
      RecallAfterRemember(ReadPrefs(hasWindow, old(items)), email);
    }

    /** Writes only the preferences entry; every other entry stays as it was. */
    method ClearRememberedEmail()
      modifies this
      ensures items == if hasWindow then old(items)[PrefsKey := PrefsJson(Merge(ReadPrefs(hasWindow, old(items)), ClearPatch))]
                       else old(items)
      ensures hasWindow ==> ReadPrefs(hasWindow, items) == Merge(ReadPrefs(hasWindow, old(items)), ClearPatch)
      ensures Recall(ReadPrefs(hasWindow, items)) == None
      ensures ReadSession(hasWindow, items) == ReadSession(hasWindow, old(items))
    {
      SaveUserPreferences(ClearPatch);
      RecallAfterClear(ReadPrefs(hasWindow, old(items)));
    }

    method GetRememberedEmail() returns (email: Option<string>)
      ensures email == Recall(ReadPrefs(hasWindow, items))
    {
      var prefs := GetUserPreferences();
      if prefs.rememberMe == Some(true) {
        email := if Truthy(prefs.email) then prefs.email else None;
      } else {
        email := None;
      }
    }

    /** Replaces the whole session record: fields not given are not kept. */
    method SaveSessionMetadata(data: SessionRecord)
      modifies this
      ensures items == if hasWindow then old(items)[SessionKey := SessionJson(data)] else old(items)
      ensures ReadSession(hasWindow, items) == if hasWindow then Some(data) else None
      ensures ReadPrefs(hasWindow, items) == ReadPrefs(hasWindow, old(items))
    {
      if !hasWindow {
        return;
      }
      EntriesAreIndependent(hasWindow, items, NoPrefs, data);
      items := items[SessionKey := SessionJson(data)];
    }

    method GetSessionMetadata() returns (data: Option<SessionRecord>)
      ensures data == ReadSession(hasWindow, items)
    {
      if !hasWindow || SessionKey !in items {
        return None;
      }
      match items[SessionKey] {
        case SessionJson(s) => data := Some(s);
        case PrefsJson(_) => data := Some(SessionRecord(None, None));
        case Unparseable => data := None;
      }
    }

    method ClearAllData()
      modifies this
      ensures items == if hasWindow then old(items) - {PrefsKey, SessionKey} else old(items)
      ensures ReadPrefs(hasWindow, items) == NoPrefs && ReadSession(hasWindow, items).None?
    {
      if !hasWindow {
        return;
      }
      items := items - {PrefsKey};
      items := items - {SessionKey};
    }

    /** Saves `{ lastActivity: now }` as the whole record, so a stored login time is lost. */
    method UpdateLastActivity(now: int)
      modifies this
      ensures items == if hasWindow then old(items)[SessionKey := SessionJson(SessionRecord(None, Some(now)))] else old(items)
      ensures ReadSession(hasWindow, items) == if hasWindow then Some(SessionRecord(None, Some(now))) else None
      ensures ReadPrefs(hasWindow, items) == ReadPrefs(hasWindow, old(items))
    {
      SaveSessionMetadata(SessionRecord(None, Some(now)));
    }
  }
}
