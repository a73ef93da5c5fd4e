/**
 * The SDK's private preference file ("app_context_pref"). Only the SDK writes it, and it
 * writes three kinds of entry: the requested context type (an Int), the legacy-mode flag
 * (a Boolean), and strings under every other key (provider URIs under "<type>", trigger
 * types under "<type>triggerType"). `Valid()` states that layout; every writer keeps it,
 * so the typed reads below never meet a value of the wrong kind.
 */
module SharedPrefs {
  import opened Wrappers
  import opened JvmText
  import opened Values
  import PC = ProtocolConstants

  type Entries = map<string, Value>

  datatype Kind = StringKind | IntKind | BoolKind

  /** The kind of value the SDK keeps under a key. */
  function KindOfKey(key: string): Kind
  {
    if key == PC.APPCONTEXT_TYPE_KEY then IntKind
    else if key == PC.USING_LEGACY_MODE then BoolKind
    else StringKind
  }

  predicate HasKind(v: Value, k: Kind)
  {
    match k
    case StringKind => v.StrV?
    case IntKind => v.IntV?
    case BoolKind => v.BoolV?
  }

  predicate WellTyped(m: Entries)
  {
    forall key :: key in m ==> HasKind(m[key], KindOfKey(key))
  }

  /** `getString(key, default)`. */
  function GetString(m: Entries, key: string, default: Option<string>): Option<string>
    requires WellTyped(m) && KindOfKey(key) == StringKind
  {
    if key in m then Some(m[key].s) else default
  }

  /** `getInt(key, default)`. */
  function GetInt(m: Entries, key: string, default: int32): int32
    requires WellTyped(m) && KindOfKey(key) == IntKind
  {
    if key in m then m[key].i else default
  }

  /** `getBoolean(key, default)`. */
  function GetBoolean(m: Entries, key: string, default: bool): bool
    requires WellTyped(m) && KindOfKey(key) == BoolKind
  {
    if key in m then m[key].b else default
  }

  /** The key under which the provider URI for a context type is kept: the type's decimal text. */
  function UriKey(t: int32): string
  {
    DecimalText(t as int)
  }

  /** The key under which the trigger type for a context type is kept. */
  function TriggerTypeKey(t: int32): string
  {
    DecimalText(t as int) + PC.APPCONTEXT_TRIGGER_TYPE_KEY
  }

  /** Keys derived from a type start with a digit or '-', so they are string-valued keys. */
  lemma TypeKeysHoldStrings(t: int32)
    ensures KindOfKey(UriKey(t)) == StringKind
    ensures KindOfKey(TriggerTypeKey(t)) == StringKind
  {
    DecimalTextShape(t as int);
    var s := DecimalText(t as int);
    assert (s + PC.APPCONTEXT_TRIGGER_TYPE_KEY)[0] == s[0];
    assert PC.APPCONTEXT_TYPE_KEY[0] == 'r' && PC.USING_LEGACY_MODE[0] == 'u';
  }

  /** A URI key and a trigger-type key never coincide, whatever the two types. */
  lemma UriKeyIsNotTriggerKey(t: int32, u: int32)
    ensures UriKey(t) != TriggerTypeKey(u)
  {
    DecimalTextChars(t as int);
    var s, k := UriKey(t), TriggerTypeKey(u);
    var i := |DecimalText(u as int)|;
    assert k[i] == 't';
    if i < |s| {
      assert s[i] != 't';
    } else {
      assert |s| < |k|;
    }
  }

  class Preferences {
    var entries: Entries

    ghost predicate Valid()
      reads this
    {
      WellTyped(entries)
    }

    constructor()
      ensures Valid() && entries == map[]
    {
      entries := map[];
    }

    /** `edit().putString(key, value).apply()` on a string-valued key. */
    method PutString(key: string, value: string)
      requires Valid() && KindOfKey(key) == StringKind
      modifies this
      ensures Valid()
      ensures entries == old(entries)[key := StrV(value)]
    {
      entries := entries[key := StrV(value)];
    }

    /** `edit().putInt(key, value).apply()` on the Int-valued key. */
    method PutInt(key: string, value: int32)
      requires Valid() && KindOfKey(key) == IntKind
      modifies this
      ensures Valid()
      ensures entries == old(entries)[key := IntV(value)]
    {
      entries := entries[key := IntV(value)];
    }

    /** `edit().putBoolean(key, value).apply()` on the Boolean-valued key. */
    method PutBoolean(key: string, value: bool)
      requires Valid() && KindOfKey(key) == BoolKind
      modifies this
      ensures Valid()
      ensures entries == old(entries)[key := BoolV(value)]
    {
      entries := entries[key := BoolV(value)];
    }
  }
}
