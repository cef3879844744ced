/*
 * The settings store (src/config/ConfigManager.h): a key/value storage message,
 * a list of config descriptors (one per registered setting), and the notices
 * broadcast when a setting changes.
 */
module Config {
  import opened Wrappers

  /** A value held in a message field; the setting types the editor registers. */
  datatype Value = BoolValue(b: bool) | Int32Value(i: int) | StringValue(s: string)

  /** A message's fields by name: a config descriptor is one such message. */
  type Fields = map<string, Value>

  /** `StorageType`: where a setting is saved. */
  datatype StorageType = StorageTypeBMessage | StorageTypeAttribute

  /** The number stored for a storage type (`kStorageTypeBMessage = 0`, `kStorageTypeAttribute = 1`). */
  function StorageCode(t: StorageType): int
  {
    match t
    case StorageTypeBMessage => 0
    case StorageTypeAttribute => 1
  }

  /** Haiku's type constant of a value's type (`B_BOOL_TYPE` 'BOOL', `B_INT32_TYPE` 'LONG', `B_STRING_TYPE` 'CSTR'). */
  function TypeCode(v: Value): int
  {
    match v
    case BoolValue(_) => 0x424F_4F4C
    case Int32Value(_) => 0x4C4F_4E47
    case StringValue(_) => 0x4353_5452
  }

  /** The fields `AddConfig` writes over whatever the template held. */
  const DescriptorFields: set<string> := {"group", "key", "label", "default_value", "type_code", "storage_type"}

  /** A notice broadcast to the application's watchers when a setting changes. */
  datatype Notice = Notice(what: int, key: string, value: Value)

  /**
   * The descriptor `AddConfig` registers: a copy of the template `cfg` when one is
   * given, with the six descriptor fields set from the arguments.
   */
  function Descriptor(group: string, key: string, labelText: string, defaultValue: Value,
                      cfg: Option<Fields>, storageType: StorageType): (d: Fields)
    ensures d.Keys == DescriptorFields + (if cfg.Some? then cfg.value.Keys else {})
    ensures d["group"] == StringValue(group) && d["key"] == StringValue(key) && d["label"] == StringValue(labelText)
    ensures d["default_value"] == defaultValue
    ensures d["type_code"] == Int32Value(TypeCode(defaultValue))
    ensures d["storage_type"] == Int32Value(StorageCode(storageType))
    ensures forall n :: n in d && n !in DescriptorFields ==> cfg.Some? && n in cfg.value && d[n] == cfg.value[n]
  {
    var base := if cfg.Some? then cfg.value else map[];
    base["group" := StringValue(group)]["key" := StringValue(key)]["label" := StringValue(labelText)]
        ["default_value" := defaultValue]["type_code" := Int32Value(TypeCode(defaultValue))]
        ["storage_type" := Int32Value(StorageCode(storageType))]
  }

  /** `ConfigManager`: the settings, their descriptors and the notices sent so far. */
  class ConfigManager {
    /** `storage`: the current value of every setting. */
    var storage: map<string, Value>
    /** The "config" entries of `configuration`, in registration order. */
    var configuration: seq<Fields>
    /** Notices sent with `be_app->SendNotices`, oldest first. */
    var notices: seq<Notice>
    /** `fWhat`: the message code of the change notices. */
    const what: int
    /** `_CheckKeyIsValid`, whose body is not part of this model. */
    const keyIsValid: string -> bool

    /** Every registered descriptor names a key that has a stored value. */
    ghost predicate Valid()
      reads this
    {
      forall i :: 0 <= i < |configuration| ==>
        "key" in configuration[i] && configuration[i]["key"].StringValue? && configuration[i]["key"].s in storage
    }

    constructor (messageWhat: int, keyIsValid: string -> bool)
      ensures Valid()
      ensures storage == map[] && configuration == [] && notices == []
      ensures what == messageWhat && this.keyIsValid == keyIsValid
    {
      storage, configuration, notices := map[], [], [];
      what := messageWhat;
      this.keyIsValid := keyIsValid;
    }

    /** `UpdateMessageWhat`: the notice code given at construction; nothing changes it. */
    function UpdateMessageWhat(): (w: int)
      reads this
      ensures w == what
    {
      what
    }

    /** `get`: the stored value of `key`; a key with no value gives None. */
    function Get(key: string): (r: Option<Value>)
      reads this
      ensures r.Some? <==> key in storage
      ensures r.Some? ==> r.value == storage[key]
    {
      if key in storage then Some(storage[key]) else None
    }

    /** `AddConfig`: stores the default value and registers one descriptor. */
    method AddConfig(group: string, key: string, labelText: string, defaultValue: Value,
                     cfg: Option<Fields>, storageType: StorageType)
      requires Valid()
      modifies this`storage, this`configuration
      ensures Valid()
      ensures storage == old(storage)[key := defaultValue]
      ensures Get(key) == Some(defaultValue)
      ensures configuration == old(configuration) + [Descriptor(group, key, labelText, defaultValue, cfg, storageType)]
    {
      var configKey: Fields := map[];
      if cfg.Some? {
        configKey := cfg.value;
      }
      configKey := configKey["group" := StringValue(group)];
      configKey := configKey["key" := StringValue(key)];
      configKey := configKey["label" := StringValue(labelText)];
      configKey := configKey["default_value" := defaultValue];
      configKey := configKey["type_code" := Int32Value(TypeCode(defaultValue))];
      configKey := configKey["storage_type" := Int32Value(StorageCode(storageType))];

      storage := storage[key := defaultValue];

      configuration := configuration + [configKey];
    }

    /**
     * `set`: for a valid key, stores `n` and, when the application object exists
     * (`appRunning`), broadcasts a notice with the key and the new value; an
     * invalid key changes nothing.
     */
    method Set(key: string, n: Value, appRunning: bool)
      requires Valid()
      modifies this`storage, this`notices
      ensures Valid()
      ensures !keyIsValid(key) ==> storage == old(storage) && notices == old(notices)
      ensures keyIsValid(key) ==>
        && storage == old(storage)[key := n]
        && Get(key) == Some(n)
        && notices == old(notices) + (if appRunning then [Notice(what, key, n)] else [])
    {
      if !keyIsValid(key) {
        return;
      }
      storage := storage[key := n];
      var noticeMessage := Notice(what, key, storage[key]);
      if appRunning {
        notices := notices + [noticeMessage];
      }
    }
  }

  /**
   * `ConfigManagerReturn`: what `manager[key]` gives; reading it gets the
   * setting, assigning to it sets the setting.
   */
  class ConfigManagerReturn {
    const key: string
    const manager: ConfigManager

    constructor (key: string, manager: ConfigManager)
      ensures this.key == key && this.manager == manager
    {
      this.key := key;
      this.manager := manager;
    }

    /** `operator Return()`: the stored value of the key. */
    function Read(): (r: Option<Value>)
      reads this, manager
      ensures r.Some? <==> key in manager.storage
      ensures r.Some? ==> r.value == manager.storage[key]
    {
      manager.Get(key)
    }

    /** `operator =`: sets the key through the manager. */
    method Assign(n: Value, appRunning: bool)
      requires manager.Valid()
      modifies manager`storage, manager`notices
      ensures manager.Valid()
      ensures !manager.keyIsValid(key) ==> manager.storage == old(manager.storage) && manager.notices == old(manager.notices)
      ensures manager.keyIsValid(key) ==>
        && manager.storage == old(manager.storage)[key := n]
        && Read() == Some(n)
        && manager.notices == old(manager.notices) + (if appRunning then [Notice(manager.what, key, n)] else [])
    {
      manager.Set(key, n, appRunning);
    }
  }
}
