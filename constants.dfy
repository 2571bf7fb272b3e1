/**
 * The application's settings: each one is read from the user's `secrets`
 * dictionary with `secrets.get(key, default)`.
 */
module Constants {

  /** A value stored in `secrets`. Python does not check the type of any setting. */
  datatype Value = Bool(b: bool) | Int(i: int) | Float(f: real) | Str(s: string)

  type Secrets = map<string, Value>

  /** The settings read at startup, in the order they are read. */
  datatype Key =
    | Debug | Brightness | NtpTimezone | NtpInterval
    | MatrixWidth | MatrixHeight | MatrixBitDepth | MatrixColorOrder | MqttPrefix

  /** The dictionary key of each setting. */
  function Name(k: Key): string {
    match k
    case Debug => "debug"
    case Brightness => "brightness"
    case NtpTimezone => "timezone"
    case NtpInterval => "ntp_interval"
    case MatrixWidth => "matrix_width"
    case MatrixHeight => "matrix_height"
    case MatrixBitDepth => "matrix_bit_depth"
    case MatrixColorOrder => "matrix_color_order"
    case MqttPrefix => "mqtt_prefix"
  }

  /** The value used when the key is absent. `Float(0.2)` stands for the float literal `0.2`. */
  function Default(k: Key): Value {
    match k
    case Debug => Bool(false)
    case Brightness => Float(0.2)
    case NtpTimezone => Str("Europe/London")
    case NtpInterval => Int(60 * 60 * 3)
    case MatrixWidth => Int(64)
    case MatrixHeight => Int(64)
    case MatrixBitDepth => Int(4)
    case MatrixColorOrder => Str("RGB")
    case MqttPrefix => Str("wideboyjr")
  }

  datatype Settings = Settings(
    debug: Value,
    brightness: Value,
    ntpTimezone: Value,
    ntpInterval: Value,
    matrixWidth: Value,
    matrixHeight: Value,
    matrixBitDepth: Value,
    matrixColorOrder: Value,
    mqttPrefix: Value)

  /** The field of `c` that holds setting `k`. */
  function Setting(c: Settings, k: Key): Value {
    match k
    case Debug => c.debug
    case Brightness => c.brightness
    case NtpTimezone => c.ntpTimezone
    case NtpInterval => c.ntpInterval
    case MatrixWidth => c.matrixWidth
    case MatrixHeight => c.matrixHeight
    case MatrixBitDepth => c.matrixBitDepth
    case MatrixColorOrder => c.matrixColorOrder
    case MqttPrefix => c.mqttPrefix
  }

  /** Python's `dict.get(key, default)`. */
  function Get(secrets: Secrets, key: string, default: Value): Value {
    if key in secrets then secrets[key] else default
  }

  /** All nine module-level settings, each read from its own key. */
  function Load(secrets: Secrets): (c: Settings)
    ensures forall k: Key :: Name(k) in secrets ==> Setting(c, k) == secrets[Name(k)]
    ensures forall k: Key :: Name(k) !in secrets ==> Setting(c, k) == Default(k)
  {
    Settings(
      Get(secrets, "debug", Bool(false)),
      Get(secrets, "brightness", Float(0.2)),
      Get(secrets, "timezone", Str("Europe/London")),
      Get(secrets, "ntp_interval", Int(60 * 60 * 3)),
      Get(secrets, "matrix_width", Int(64)),
      Get(secrets, "matrix_height", Int(64)),
      Get(secrets, "matrix_bit_depth", Int(4)),
      Get(secrets, "matrix_color_order", Str("RGB")),
      Get(secrets, "mqtt_prefix", Str("wideboyjr")))
  }

  /** No two settings share a key. */
  lemma NamesDistinct(j: Key, k: Key)
    requires j != k
    ensures Name(j) != Name(k)
  {
  }

  /** With an empty `secrets`, every setting takes its default. */
  lemma Defaults()
    ensures Load(map[]) == Settings(
      Bool(false), Float(0.2), Str("Europe/London"), Int(10800),
      Int(64), Int(64), Int(4), Str("RGB"), Str("wideboyjr"))
  {
  }

  /** A setting depends only on the entry, or absence, of its own key. */
  lemma OnlyOwnKey(s1: Secrets, s2: Secrets, k: Key)
    requires (Name(k) in s1) == (Name(k) in s2)
    requires Name(k) in s1 ==> s1[Name(k)] == s2[Name(k)]
    ensures Setting(Load(s1), k) == Setting(Load(s2), k)
  {
  }

  /** Adding or changing an unrelated key in `secrets` leaves setting `k` as it was. */
  lemma UnrelatedKey(secrets: Secrets, key: string, v: Value, k: Key)
    requires key != Name(k)
    ensures Setting(Load(secrets[key := v]), k) == Setting(Load(secrets), k)
  {
  }
}
