/**
 * The privacy settings record: a keyed update that notifies the parent, the
 * removal of a user from one of the three user lists, and the two toggles
 * that go through a confirmation dialog.
 */
module Privacy {
  import opened Seqs
  import opened Forms

  /** A setting's value: the record holds booleans, strings and lists of user names. */
  datatype Value = Flag(on: bool) | Text(text: string) | Names(names: seq<string>)

  datatype Kind = FlagKind | TextKind | NamesKind

  function KindOf(v: Value): Kind {
    match v
    case Flag(_) => FlagKind
    case Text(_) => TextKind
    case Names(_) => NamesKind
  }

  /** The fifteen keys of the settings object. */
  datatype Key =
    | PrivateAccount | TwoFactorAuth
    | CloseFriends | BlockedUsers | RestrictedUsers
    | StoryPrivacy | PostPrivacy | DmPrivacy | CommentPrivacy
    | ActivityStatus | ProfileVisibility | EmailNotifications | PushNotifications
    | EmailAddress | PhoneNumber

  /** The kind of value each key holds. */
  function Schema(k: Key): Kind {
    match k
    case PrivateAccount | TwoFactorAuth | ActivityStatus | ProfileVisibility
      | EmailNotifications | PushNotifications => FlagKind
    case CloseFriends | BlockedUsers | RestrictedUsers => NamesKind
    case StoryPrivacy | PostPrivacy | DmPrivacy | CommentPrivacy | EmailAddress | PhoneNumber => TextKind
  }

  /** The settings object; `{ ...prev, [key]: value }` is a map update. */
  type Settings = map<Key, Value>

  /** Every key present, each with a value of its kind. */
  predicate WellTyped(s: Settings) {
    forall k: Key :: k in s && KindOf(s[k]) == Schema(k)
  }

  /** All fifteen keys. */
  const AllKeys: set<Key> := {
    PrivateAccount, TwoFactorAuth, CloseFriends, BlockedUsers, RestrictedUsers,
    StoryPrivacy, PostPrivacy, DmPrivacy, CommentPrivacy,
    ActivityStatus, ProfileVisibility, EmailNotifications, PushNotifications,
    EmailAddress, PhoneNumber}

  lemma AllKeysListed(k: Key)
    ensures k in AllKeys
  {
    match k {
      case PrivateAccount => case TwoFactorAuth =>
      case CloseFriends => case BlockedUsers => case RestrictedUsers =>
      case StoryPrivacy => case PostPrivacy => case DmPrivacy => case CommentPrivacy =>
      case ActivityStatus => case ProfileVisibility => case EmailNotifications => case PushNotifications =>
      case EmailAddress => case PhoneNumber =>
    }
  }

  /** The value each key starts with. */
  function DefaultValue(k: Key): Value {
    match k
    case PrivateAccount | TwoFactorAuth => Flag(false)
    case CloseFriends | BlockedUsers | RestrictedUsers => Names([])
    case StoryPrivacy | PostPrivacy | DmPrivacy | CommentPrivacy => Text("everyone")
    case ActivityStatus | ProfileVisibility | EmailNotifications | PushNotifications => Flag(true)
    case EmailAddress | PhoneNumber => Text("")
  }

  /** The value each key is fetched with: the default, except for the lists and the contact details. */
  function MockValue(k: Key): Value {
    match k
    case CloseFriends => Names(["user1", "user2", "user3"])
    case BlockedUsers => Names(["blocked1", "blocked2"])
    case RestrictedUsers => Names(["restricted1"])
    case EmailAddress => Text("user@example.com")
    case PhoneNumber => Text("+1234567890")
    case _ => DefaultValue(k)
  }

  /** The record the screen starts from. */
  const DefaultSettings: Settings := map k | k in AllKeys :: DefaultValue(k)

  /** The record `fetchPrivacySettings` puts in place. */
  const MockSettings: Settings := map k | k in AllKeys :: MockValue(k)

  /** The record the screen starts from holds every key, each with a value of its kind. */
  lemma DefaultSettingsWellTyped()
    ensures WellTyped(DefaultSettings)
  {
    forall k: Key ensures k in DefaultSettings && KindOf(DefaultSettings[k]) == Schema(k) {
      AllKeysListed(k);
    }
  }

  /** The fetched record holds every key, each with a value of its kind. */
  lemma MockSettingsWellTyped()
    ensures WellTyped(MockSettings)
  {
    forall k: Key ensures k in MockSettings && KindOf(MockSettings[k]) == Schema(k) {
      AllKeysListed(k);
    }
  }

  /** `updateSetting(key, value)`: that key holds the value, every other key is as it was. */
  function Update(s: Settings, key: Key, value: Value): (r: Settings)
    ensures key in r && r[key] == value
    ensures forall k :: k != key ==> (k in r <==> k in s)
    ensures forall k :: k != key && k in s ==> r[k] == s[k]
  {
    s[key := value]
  }

  /** A value of the key's own kind keeps the record well-typed. */
  lemma UpdateKeepsSchema(s: Settings, key: Key, value: Value)
    requires WellTyped(s) && KindOf(value) == Schema(key)
    ensures WellTyped(Update(s, key, value))
  {
  }

  /** The later of two updates of one key wins. */
  lemma UpdateLastWins(s: Settings, key: Key, v1: Value, v2: Value)
    ensures Update(Update(s, key, v1), key, v2) == Update(s, key, v2)
  {
  }

  /** Updates of different keys commute. */
  lemma UpdatesCommute(s: Settings, k1: Key, v1: Value, k2: Key, v2: Value)
    requires k1 != k2
    ensures Update(Update(s, k1, v1), k2, v2) == Update(Update(s, k2, v2), k1, v1)
  {
  }

  /** Writing back the value a key already holds changes nothing. */
  lemma UpdateWithCurrentValue(s: Settings, key: Key)
    requires key in s
    ensures Update(s, key, s[key]) == s
  {
  }

  /** `list.filter(u => u !== user)`. */
  function RemoveUser(users: seq<string>, user: string): (r: seq<string>)
    ensures user !in r
    ensures forall i :: 0 <= i < |users| && users[i] != user ==> users[i] in r
    ensures forall i :: 0 <= i < |r| ==> r[i] in users
  {
    Filter(u => u != user, users)
  }

  /** Removal keeps the other names in their order, and removing an absent name changes nothing. */
  lemma RemoveUserKeepsOrder(users: seq<string>, user: string)
    ensures IsSubsequence(RemoveUser(users, user), users)
    ensures user !in users ==> RemoveUser(users, user) == users
  {
    FilterIsSubsequence(u => u != user, users);
    if user !in users {
      FilterKeepsAll(u => u != user, users);
    }
  }

  /** Removing the same name twice is the same as removing it once. */
  lemma RemoveUserIdempotent(users: seq<string>, user: string)
    ensures RemoveUser(RemoveUser(users, user), user) == RemoveUser(users, user)
  {
    FilterIdempotent(u => u != user, users);
  }

  /** JavaScript truthiness of a setting; a missing key reads as `undefined`. */
  predicate IsOn(s: Settings, key: Key) {
    key in s && match s[key]
      case Flag(b) => b
      case Text(t) => t != ""
      case Names(_) => true
  }

  /**
   * The two-factor switch: turning it off is immediate; turning it on asks
   * first and happens only on 'Enable'.
   */
  function TwoFactorToggle(s: Settings, choice: Choice): (r: Settings)
    ensures IsOn(s, TwoFactorAuth) ==> r == Update(s, TwoFactorAuth, Flag(false))
    ensures !IsOn(s, TwoFactorAuth) && choice == Confirm ==> r == Update(s, TwoFactorAuth, Flag(true))
    ensures !IsOn(s, TwoFactorAuth) && choice == Cancel ==> r == s
  {
    if !IsOn(s, TwoFactorAuth) then
      if choice == Confirm then Update(s, TwoFactorAuth, Flag(true)) else s
    else Update(s, TwoFactorAuth, Flag(false))
  }

  /** The private-account switch: the flipped value is applied only on confirmation. */
  function PrivateAccountToggle(s: Settings, choice: Choice): (r: Settings)
    ensures choice == Cancel ==> r == s
    ensures choice == Confirm ==> r == Update(s, PrivateAccount, Flag(!IsOn(s, PrivateAccount)))
  {
    var newValue := !IsOn(s, PrivateAccount);
    if choice == Confirm then Update(s, PrivateAccount, Flag(newValue)) else s
  }

  /** The title and the confirm button of the private-account dialog. */
  function PrivateAccountDialog(s: Settings): (r: (string, string))
    ensures r.0 == "Private Account" <==> PrivateAccountToggle(s, Confirm)[PrivateAccount] == Flag(true)
  {
    if !IsOn(s, PrivateAccount) then ("Private Account", "Make Private") else ("Public Account", "Make Public")
  }

  /** Two confirmed private-account toggles restore a well-typed record. */
  lemma PrivateToggleTwice(s: Settings)
    requires WellTyped(s)
    ensures PrivateAccountToggle(PrivateAccountToggle(s, Confirm), Confirm) == s
  {
    var once := PrivateAccountToggle(s, Confirm);
    assert once[PrivateAccount] == Flag(!IsOn(s, PrivateAccount));
    assert s[PrivateAccount] == Flag(IsOn(s, PrivateAccount));
  }

  /** Each toggle changes only its own switch, and keeps the record well-typed. */
  lemma TogglesTouchOnlyTheirSwitch(s: Settings, choice: Choice)
    requires WellTyped(s)
    ensures WellTyped(TwoFactorToggle(s, choice)) && WellTyped(PrivateAccountToggle(s, choice))
    ensures forall k :: k in s && k != TwoFactorAuth ==> TwoFactorToggle(s, choice)[k] == s[k]
    ensures forall k :: k in s && k != PrivateAccount ==> PrivateAccountToggle(s, choice)[k] == s[k]
  {
  }

  class PrivacySettings {
    var settings: Settings
    /** Whether the parent passed `onSettingsChange`. */
    const hasListener: bool
    /** The records handed to `onSettingsChange`, oldest first. */
    var notified: seq<Settings>

    constructor (listener: bool)
      ensures settings == DefaultSettings && hasListener == listener && notified == []
    {
      settings, hasListener, notified := DefaultSettings, listener, [];
    }

    /** `fetchPrivacySettings`. */
    method FetchSettings()
      modifies this`settings
      ensures settings == MockSettings
    {
      settings := MockSettings;
    }

    /** The record is updated and the parent, if any, receives the same updated record. */
    method UpdateSetting(key: Key, value: Value)
      modifies this`settings, this`notified
      ensures settings == Update(old(settings), key, value)
      ensures notified == old(notified) + if hasListener then [settings] else []
    {
      settings := settings[key := value];
      if hasListener {
        notified := notified + [settings];
      }
    }

    /** The remove button of one of the three user-list dialogs. */
    method RemoveFromList(key: Key, user: string)
      requires key == CloseFriends || key == BlockedUsers || key == RestrictedUsers
      requires key in settings && settings[key].Names?
      modifies this`settings, this`notified
      ensures settings == Update(old(settings), key, Names(RemoveUser(old(settings)[key].names, user)))
      ensures notified == old(notified) + if hasListener then [settings] else []
    {
      UpdateSetting(key, Names(Filter(u => u != user, settings[key].names)));
    }

    method HandleTwoFactorToggle(choice: Choice)
      modifies this`settings, this`notified
      ensures settings == TwoFactorToggle(old(settings), choice)
    {
      if !IsOn(settings, TwoFactorAuth) {
        if choice == Confirm {
          UpdateSetting(TwoFactorAuth, Flag(true));
        }
      } else {
        UpdateSetting(TwoFactorAuth, Flag(false));
      }
    }

    method HandlePrivateAccountToggle(choice: Choice)
      modifies this`settings, this`notified
      ensures settings == PrivateAccountToggle(old(settings), choice)
    {
      var newValue := !IsOn(settings, PrivateAccount);
      if choice == Confirm {
        UpdateSetting(PrivateAccount, Flag(newValue));
      }
    }
  }
}
