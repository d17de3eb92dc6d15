/** The configuration store of the system monitor: the values a JSON
    configuration file can hold, the built-in defaults, the merge done when
    the file is loaded, and the record the save form builds and merges into
    the session's configuration. */
module Config {
  import opened Wrappers

  /** A value as the JSON reader produces it. JSON numbers with a fraction
      are Python floats; they are modelled as exact reals. */
  datatype Value =
    | VNull
    | VBool(b: bool)
    | VInt(i: int)
    | VReal(r: real)
    | VStr(s: string)
    | VArray(items: seq<Value>)
    | VObject(fields: map<string, Value>)

  /** A configuration record: a flat dictionary from key to value. */
  type Record = map<string, Value>

  /** Python's truth value of a JSON value, as `if` and `not` read it. */
  predicate Truthy(v: Value) {
    match v
    case VNull => false
    case VBool(b) => b
    case VInt(i) => i != 0
    case VReal(r) => r != 0.0
    case VStr(s) => s != ""
    case VArray(items) => items != []
    case VObject(fields) => fields != map[]
  }

  /** Python's `v == t` for a float `t`: numbers (and booleans, which are
      the integers 0 and 1) compare by value, anything else is unequal. */
  predicate SameNumber(v: Value, t: real) {
    match v
    case VBool(b) => (if b then 1.0 else 0.0) == t
    case VInt(i) => i as real == t
    case VReal(r) => r == t
    case _ => false
  }

  const UsbPortKey: string := "usb_port"
  const BaudRateKey: string := "baud_rate"
  const CheckIntervalKey: string := "check_interval"
  const ThresholdKey: string := "anomaly_threshold"
  const BotTokenKey: string := "telegram_bot_token"
  const ChatIdKey: string := "telegram_chat_id"
  const EnableAlertsKey: string := "enable_telegram_alerts"
  const LastStatusKey: string := "last_known_status"

  const DefaultKeys: set<string> :=
    {UsbPortKey, BaudRateKey, CheckIntervalKey, ThresholdKey,
     BotTokenKey, ChatIdKey, EnableAlertsKey, LastStatusKey}

  /** The default bot token is a credential; its text plays no part in the
      model and is replaced by a placeholder. */
  const DefaultBotToken: string := "<telegram-bot-token>"

  /** DEFAULT_CONFIG. */
  const DefaultConfig: Record := map[
    UsbPortKey := VStr("/dev/cu.usbserial-10"),
    BaudRateKey := VInt(9600),
    CheckIntervalKey := VInt(5),
    ThresholdKey := VReal(0.1),
    BotTokenKey := VStr(DefaultBotToken),
    ChatIdKey := VStr("1318642270"),
    EnableAlertsKey := VBool(true),
    LastStatusKey := VStr("offline")
  ]

  /** The invariant of every configuration the session holds. */
  predicate HasDefaultKeys(c: Record) {
    DefaultKeys <= c.Keys
  }

  /** `config.get(key, default)`. */
  function Get(c: Record, key: string, default: Value): Value {
    if key in c then c[key] else default
  }

  /** `config.get('enable_telegram_alerts', False)` read as a condition. */
  predicate AlertsEnabled(c: Record) {
    Truthy(Get(c, EnableAlertsKey, VBool(false)))
  }

  /** The values Python treats as false in a condition are exactly `None`,
      `False`, the zeros, the empty string, the empty list and the empty
      dictionary. */
  lemma FalsyValues(v: Value)
    ensures !Truthy(v) <==>
      v in {VNull, VBool(false), VInt(0), VReal(0.0), VStr(""), VArray([]), VObject(map[])}
  {
  }

  /** Alerts are enabled exactly when the flag is present and truthy. */
  lemma AlertsGate(c: Record)
    ensures AlertsEnabled(c) <==> EnableAlertsKey in c && Truthy(c[EnableAlertsKey])
  {
  }

  /** load_config: `None` is a missing file; otherwise the file's record is
      laid over the defaults, key by key. */
  function LoadConfig(file: Option<Record>): (c: Record)
    ensures file.None? ==> c == DefaultConfig
    ensures file.Some? ==> c.Keys == DefaultConfig.Keys + file.value.Keys
    ensures file.Some? ==> forall k :: k in file.value ==> c[k] == file.value[k]
    ensures file.Some? ==> forall k :: k in DefaultConfig && k !in file.value ==> c[k] == DefaultConfig[k]
    ensures HasDefaultKeys(c)
  {
    match file
    case None => DefaultConfig
    case Some(f) => DefaultConfig + f
  }

  /** Loading a record that already holds every default key gives that
      record back: reloading a merged configuration changes nothing. */
  lemma LoadCompleteRecord(f: Record)
    requires HasDefaultKeys(f)
    ensures LoadConfig(Some(f)) == f
  {
    var c := LoadConfig(Some(f));
    assert c.Keys == f.Keys by {
      assert DefaultConfig.Keys == DefaultKeys;
    }
    assert forall k :: k in c ==> c[k] == f[k];
  }

  /** Loading is idempotent. */
  lemma LoadIdempotent(file: Option<Record>)
    ensures LoadConfig(Some(LoadConfig(file))) == LoadConfig(file)
  {
    LoadCompleteRecord(LoadConfig(file));
  }

  /** A missing enable flag means alerts are off. */
  lemma MissingFlagDisablesAlerts(c: Record)
    requires EnableAlertsKey !in c
    ensures !AlertsEnabled(c)
  {
  }

  /** The values the sidebar form holds when "Save Configuration" is
      pressed. The token and chat id fields are only shown, and only read,
      when alerts are enabled. */
  datatype Form = Form(
    usbPort: string,
    baudRate: int,
    enableTelegram: bool,
    botToken: string,
    chatId: string,
    checkInterval: int,
    anomalyThreshold: real)

  /** `new_config` of the save handler; `status` is the session's current
      status name. */
  function NewConfig(form: Form, status: string): (c: Record)
    ensures c.Keys == DefaultKeys
  {
    map[
      UsbPortKey := VStr(form.usbPort),
      BaudRateKey := VInt(form.baudRate),
      BotTokenKey := VStr(if form.enableTelegram then form.botToken else ""),
      ChatIdKey := VStr(if form.enableTelegram then form.chatId else ""),
      CheckIntervalKey := VInt(form.checkInterval),
      ThresholdKey := VReal(form.anomalyThreshold),
      EnableAlertsKey := VBool(form.enableTelegram),
      LastStatusKey := VStr(status)
    ]
  }

  /** Saving with alerts disabled persists empty credentials, and the saved
      flag reads back as the form's checkbox. */
  lemma SavedCredentials(form: Form, status: string)
    ensures var c := NewConfig(form, status);
      && AlertsEnabled(c) == form.enableTelegram
      && (!form.enableTelegram ==> c[BotTokenKey] == VStr("") && c[ChatIdKey] == VStr(""))
  {
  }

  /** The file written by a save, loaded again at the next start, gives
      exactly the saved record: every default key is written. */
  lemma SaveThenLoad(form: Form, status: string)
    ensures LoadConfig(Some(NewConfig(form, status))) == NewConfig(form, status)
  {
    LoadCompleteRecord(NewConfig(form, status));
  }

  /** `config.update(new_config)`: the form's keys take the form's values
      and every other key of the session's configuration is kept; in
      particular the session's alert gate follows the checkbox from then on. */
  function UpdateConfig(config: Record, form: Form, status: string): (c: Record)
    ensures c.Keys == config.Keys + DefaultKeys
    ensures forall k :: k in config && k !in DefaultKeys ==> c[k] == config[k]
    ensures forall k :: k in DefaultKeys ==> c[k] == NewConfig(form, status)[k]
    ensures HasDefaultKeys(c) && c[ThresholdKey] == VReal(form.anomalyThreshold)
    ensures AlertsEnabled(c) == form.enableTelegram
  {
    config + NewConfig(form, status)
  }

  /** The refit test AS WRITTEN: it reads the threshold back from the
      configuration after the update has already stored the form's value. */
  predicate RefitAsWritten(config: Record, form: Form, status: string) {
    !SameNumber(UpdateConfig(config, form, status)[ThresholdKey], form.anomalyThreshold)
  }

  /** As written, the refit branch can never be taken. */
  lemma AsWrittenNeverRefits(config: Record, form: Form, status: string)
    ensures !RefitAsWritten(config, form, status)
  {
  }

  /** The refit test as intended: the form's threshold differs from the one
      the configuration held before the save. */
  predicate ThresholdChanged(config: Record, form: Form)
    requires ThresholdKey in config
  {
    !SameNumber(config[ThresholdKey], form.anomalyThreshold)
  }

  /** Saving a threshold of 0.2 over the default 0.1: the intended test
      refits, the test as written does not. */
  lemma AsWrittenMissesThresholdChange(status: string)
    ensures var form := Form("/dev/cu.usbserial-10", 9600, true, "", "", 5, 0.2);
      && ThresholdChanged(DefaultConfig, form)
      && !RefitAsWritten(DefaultConfig, form, status)
  {
  }

  /** With the intended test, a save refits exactly when it moves the
      threshold: a configuration that already holds the form's threshold
      does not refit (an integer 0 in the file is the threshold 0.0, as
      Python compares them), and saving the same form a second time does
      not refit again. */
  lemma RefitOnChangeOnly(config: Record, form: Form, status: string)
    requires ThresholdKey in config
    ensures config[ThresholdKey] == VReal(form.anomalyThreshold) ==> !ThresholdChanged(config, form)
    ensures config[ThresholdKey] == VInt(0) && form.anomalyThreshold == 0.0 ==> !ThresholdChanged(config, form)
    ensures !ThresholdChanged(UpdateConfig(config, form, status), form)
  {
  }
}
