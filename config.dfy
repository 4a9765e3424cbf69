/**
 * Client construction options: `setConfig` merges a `BrokerConfig` into the
 * writer and reader configurations (kafka.go:66-84) and `setLogLevel` turns a
 * log mode into a logrus setting (kafka.go:86-99). Durations are naturals,
 * with 0 meaning "not set".
 */
module Config {

  datatype LogLevel = DebugLevel | InfoLevel | WarnLevel | ErrorLevel

  /** The process-wide logging change `setLogLevel` makes. */
  datatype LogEffect = SetLevel(level: LogLevel) | DiscardOutput

  /** The log-mode names (their declarations are not part of this model). */
  const DebugMode: string := "debug"
  const InfoMode: string := "info"
  const WarnMode: string := "warn"
  const ErrorMode: string := "error"

  function ModeName(level: LogLevel): (name: string)
  {
    match level
    case DebugLevel => DebugMode
    case InfoLevel => InfoMode
    case WarnLevel => WarnMode
    case ErrorLevel => ErrorMode
  }

  /** Exactly the four named modes select a level; anything else, "" included, silences output. */
  function SetLogLevel(logMode: string): (r: LogEffect)
    ensures r.SetLevel? <==> logMode in {DebugMode, InfoMode, WarnMode, ErrorMode}
    ensures r.SetLevel? ==> ModeName(r.level) == logMode
  {
    if logMode == DebugMode then SetLevel(DebugLevel)
    else if logMode == InfoMode then SetLevel(InfoLevel)
    else if logMode == WarnMode then SetLevel(WarnLevel)
    else if logMode == ErrorMode then SetLevel(ErrorLevel)
    else DiscardOutput
  }

  /** Every level is reachable, by its own name. */
  lemma SetLogLevelOfModeName(level: LogLevel)
    ensures SetLogLevel(ModeName(level)) == SetLevel(level)
  {
  }

  datatype BrokerConfig = BrokerConfig(
    readTimeout: nat,
    writeTimeout: nat,
    dialTimeout: nat,
    strictValidation: bool,
    logMode: string)

  /** `kafka.Dialer`; only its timeout is set here. */
  class Dialer {
    const timeout: nat

    constructor (timeout: nat)
      ensures this.timeout == timeout
    {
      this.timeout := timeout;
    }
  }

  /** The fields of `kafka.WriterConfig` that `setConfig` touches. */
  class WriterConfig {
    var readTimeout: nat
    var writeTimeout: nat
    var dialer: Dialer?

    constructor ()
      ensures readTimeout == 0 && writeTimeout == 0 && dialer == null
    {
      readTimeout, writeTimeout, dialer := 0, 0, null;
    }
  }

  /** The field of `kafka.ReaderConfig` that `setConfig` touches. */
  class ReaderConfig {
    var dialer: Dialer?

    constructor ()
      ensures dialer == null
    {
      dialer := null;
    }
  }

  /**
   * `setConfig` as written: a non-zero read timeout makes the writer's read
   * timeout take the configured WRITE timeout. A non-zero dial timeout gives
   * both configurations one shared, new dialer. Returns the log effect.
   */
  method SetConfig(writer: WriterConfig, reader: ReaderConfig, config: BrokerConfig)
    returns (logEffect: LogEffect)
    modifies writer, reader
    ensures writer.readTimeout == if config.readTimeout != 0 then config.writeTimeout else old(writer.readTimeout)
    ensures writer.writeTimeout == if config.writeTimeout != 0 then config.writeTimeout else old(writer.writeTimeout)
    ensures config.dialTimeout != 0 ==>
      writer.dialer != null && fresh(writer.dialer) && reader.dialer == writer.dialer
      && writer.dialer.timeout == config.dialTimeout
    ensures config.dialTimeout == 0 ==> writer.dialer == old(writer.dialer) && reader.dialer == old(reader.dialer)
    ensures logEffect == SetLogLevel(config.logMode)
  {
    if config.readTimeout != 0 {
      writer.readTimeout := config.writeTimeout;
    }
    if config.writeTimeout != 0 {
      writer.writeTimeout := config.writeTimeout;
    }
    if config.dialTimeout != 0 {
      var dialer := new Dialer(config.dialTimeout);
      writer.dialer := dialer;
      reader.dialer := dialer;
    }
    logEffect := SetLogLevel(config.logMode);
  }

  /**
   * A configured read timeout of 5 with no write timeout leaves the writer
   * with read timeout 0 (the library default) under `SetConfig`.
   */
  method ReadTimeoutLost() returns (requested: nat, applied: nat)
    ensures requested == 5 && applied == 0
  {
    var writer := new WriterConfig();
    var reader := new ReaderConfig();
    var config := BrokerConfig(5, 0, 0, false, InfoMode);
    var _ := SetConfig(writer, reader, config);
    requested, applied := config.readTimeout, writer.readTimeout;
  }

  /** `setConfig` as evidently intended: every non-zero timeout reaches its own field. */
  method SetConfigCorrected(writer: WriterConfig, reader: ReaderConfig, config: BrokerConfig)
    returns (logEffect: LogEffect)
    modifies writer, reader
    ensures writer.readTimeout == if config.readTimeout != 0 then config.readTimeout else old(writer.readTimeout)
    ensures writer.writeTimeout == if config.writeTimeout != 0 then config.writeTimeout else old(writer.writeTimeout)
    ensures config.dialTimeout != 0 ==>
      writer.dialer != null && fresh(writer.dialer) && reader.dialer == writer.dialer
      && writer.dialer.timeout == config.dialTimeout
    ensures config.dialTimeout == 0 ==> writer.dialer == old(writer.dialer) && reader.dialer == old(reader.dialer)
    ensures logEffect == SetLogLevel(config.logMode)
  {
    if config.readTimeout != 0 {
      writer.readTimeout := config.readTimeout;
    }
    if config.writeTimeout != 0 {
      writer.writeTimeout := config.writeTimeout;
    }
    if config.dialTimeout != 0 {
      var dialer := new Dialer(config.dialTimeout);
      writer.dialer := dialer;
      reader.dialer := dialer;
    }
    logEffect := SetLogLevel(config.logMode);
  }

  /** Under the corrected merge the same configuration keeps the requested read timeout. */
  method ReadTimeoutKept() returns (requested: nat, applied: nat)
    ensures requested == 5 && applied == 5
  {
    var writer := new WriterConfig();
    var reader := new ReaderConfig();
    var config := BrokerConfig(5, 0, 0, false, InfoMode);
    var _ := SetConfigCorrected(writer, reader, config);
    requested, applied := config.readTimeout, writer.readTimeout;
  }
}
