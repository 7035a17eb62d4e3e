/** Settings of the back end and the values derived from them: the CORS origin
    list and the Kafka consumer and producer configurations. */
module Config {
  import opened Wrappers
  import opened Seqs
  import opened Text

  /** The settings the derived values read (environment loading is not modelled). */
  datatype Settings = Settings(
    confluentBootstrapServers: string,
    confluentApiKey: string,
    confluentApiSecret: string,
    kafkaConsumerGroup: string,
    kafkaAutoOffsetReset: string,
    kafkaEnableAutoCommit: bool,
    corsOrigins: string,
    googleCloudProject: string)

  /** The declared defaults of those settings. */
  const DEFAULT_SETTINGS := Settings("", "", "", "threatstream-processor-group", "latest", false,
    "http://localhost:3000", "")

  /** cors_origins_list: one entry per comma-separated piece, stripped; empty
      pieces are kept, so there is one entry more than there are commas. */
  function CorsOriginsList(s: Settings): (origins: seq<string>)
    ensures |origins| == |Split(s.corsOrigins, ",")| == multiset(s.corsOrigins)[','] + 1
    ensures forall k :: 0 <= k < |origins| ==> origins[k] == Strip(Split(s.corsOrigins, ",")[k])
    ensures forall k :: 0 <= k < |origins| ==> ',' !in origins[k]
    ensures forall k :: 0 <= k < |origins| ==> |origins[k]| > 0 ==>
      !IsSpace(origins[k][0]) && !IsSpace(origins[k][|origins[k]| - 1])
  {
    var pieces := Split(s.corsOrigins, ",");
    SplitCharCount(s.corsOrigins, ',');
    StrippedPiecesCommaFree(pieces);
    seq(|pieces|, k requires 0 <= k < |pieces| => Strip(pieces[k]))
  }

  /** The pieces of a split at commas hold no comma, and stripping keeps it so. */
  lemma StrippedPiecesCommaFree(pieces: seq<string>)
    requires forall k :: 0 <= k < |pieces| ==> !Contains(pieces[k], ",")
    ensures forall k :: 0 <= k < |pieces| ==> ',' !in Strip(pieces[k])
  {
    forall k | 0 <= k < |pieces|
      ensures ',' !in Strip(pieces[k])
    {
      ContainsCharIn(pieces[k], ',');
      StripKeepsAbsent(pieces[k], ',');
    }
  }

  /** Stripping only removes characters, so a character absent before is absent after. */
  lemma StripKeepsAbsent(s: string, c: char)
    requires c !in s
    ensures c !in Strip(s)
  {
    var l := StripLeft(s);
    forall i | 0 <= i < |l| ensures l[i] != c {
      assert l[i] == s[|s| - |l| + i];
    }
    var r := StripRight(l);
    forall i | 0 <= i < |r| ensures r[i] != c {
      assert r[i] == l[i];
    }
  }

  /** A comma-free origin setting is a one-entry list. */
  lemma SingleOrigin(s: Settings)
    requires ',' !in s.corsOrigins
    ensures CorsOriginsList(s) == [Strip(s.corsOrigins)]
  {
    NotContainsChar(s.corsOrigins, ',');
  }

  /** With the declared defaults the origin list is the local front end alone. */
  lemma DefaultOrigins()
    ensures CorsOriginsList(DEFAULT_SETTINGS) == ["http://localhost:3000"]
  {
    DefaultOriginCommaFree();
    var o := DEFAULT_SETTINGS.corsOrigins;
    assert |o| > 0 && !IsSpace(o[0]) && !IsSpace(o[|o| - 1]);
    TrimmedSingleOrigin(DEFAULT_SETTINGS);
  }

  /** A comma-free setting with no whitespace at its ends is its own one-entry list. */
  lemma TrimmedSingleOrigin(s: Settings)
    requires ',' !in s.corsOrigins
    requires |s.corsOrigins| > 0 && !IsSpace(s.corsOrigins[0]) && !IsSpace(s.corsOrigins[|s.corsOrigins| - 1])
    ensures CorsOriginsList(s) == [s.corsOrigins]
  {
    SingleOrigin(s);
    StripUnchanged(s.corsOrigins);
  }

  lemma DefaultOriginCommaFree()
    ensures ',' !in DEFAULT_SETTINGS.corsOrigins
  {
    var o := DEFAULT_SETTINGS.corsOrigins;
    forall i | 0 <= i < |o| ensures o[i] != ',' {
    }
  }

  /** A configuration value: a string or a boolean flag. */
  datatype ConfigValue = Str(text: string) | Flag(on: bool)

  /** A configuration dictionary. */
  type ConfigDict = map<string, ConfigValue>

  /** Both the api key and the secret are non-empty strings (Python truthiness). */
  predicate HasCredentials(s: Settings) {
    s.confluentApiKey != "" && s.confluentApiSecret != ""
  }

  /** The SASL entries added when credentials are present, none otherwise. */
  function Authentication(s: Settings): ConfigDict {
    if HasCredentials(s) then
      map["security.protocol" := Str("SASL_SSL"), "sasl.mechanisms" := Str("PLAIN"),
          "sasl.username" := Str(s.confluentApiKey), "sasl.password" := Str(s.confluentApiSecret)]
    else map[]
  }

  /** The keys only a consumer uses. */
  const CONSUMER_KEYS: set<string> := {"group.id", "auto.offset.reset", "enable.auto.commit"}

  /** kafka_config: the connection and consumer-group entries, plus the SASL
      entries exactly when both credentials are set. */
  function KafkaConfig(s: Settings): (c: ConfigDict)
    ensures CONSUMER_KEYS <= c.Keys && "bootstrap.servers" in c
    ensures c["bootstrap.servers"] == Str(s.confluentBootstrapServers)
    ensures c["group.id"] == Str(s.kafkaConsumerGroup)
    ensures c["auto.offset.reset"] == Str(s.kafkaAutoOffsetReset)
    ensures c["enable.auto.commit"] == Flag(s.kafkaEnableAutoCommit)
    ensures "sasl.username" in c <==> HasCredentials(s)
    ensures "sasl.password" in c <==> HasCredentials(s)
    ensures "security.protocol" in c <==> HasCredentials(s)
    ensures "sasl.mechanisms" in c <==> HasCredentials(s)
    ensures HasCredentials(s) ==>
      c["sasl.username"] == Str(s.confluentApiKey) && c["sasl.password"] == Str(s.confluentApiSecret) &&
      c["security.protocol"] == Str("SASL_SSL") && c["sasl.mechanisms"] == Str("PLAIN")
  {
    map["bootstrap.servers" := Str(s.confluentBootstrapServers),
        "group.id" := Str(s.kafkaConsumerGroup),
        "auto.offset.reset" := Str(s.kafkaAutoOffsetReset),
        "enable.auto.commit" := Flag(s.kafkaEnableAutoCommit)] + Authentication(s)
  }

  /** kafka_producer_config: the bootstrap servers plus the same SASL entries. */
  function KafkaProducerConfig(s: Settings): (c: ConfigDict)
    ensures c.Keys !! CONSUMER_KEYS
    ensures "bootstrap.servers" in c && c["bootstrap.servers"] == Str(s.confluentBootstrapServers)
    ensures "sasl.username" in c <==> HasCredentials(s)
    ensures "sasl.password" in c <==> HasCredentials(s)
    ensures HasCredentials(s) ==>
      c["sasl.username"] == Str(s.confluentApiKey) && c["sasl.password"] == Str(s.confluentApiSecret)
  {
    map["bootstrap.servers" := Str(s.confluentBootstrapServers)] + Authentication(s)
  }

  /** The producer configuration is the consumer configuration without the
      consumer-only keys. */
  lemma ProducerIsConsumerWithoutGroupKeys(s: Settings)
    ensures KafkaProducerConfig(s) == KafkaConfig(s) - CONSUMER_KEYS
  {
  }
}
