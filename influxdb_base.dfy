/**
 * The base class of InfluxDB data stream type plugins. Its only state is the
 * client factory injected at construction, which nothing reassigns, so the
 * plugin is a value holding that factory.
 */
module DataStreamTypePlugin {
  import opened Wrappers
  import opened Php
  import opened ClientFactory

  datatype InfluxdbBase = InfluxdbBase(influxdbServerClientFactory: InfluxdbServerClientFactory) {

    /**
     * getClient as written: delegates to the factory for the stream and drops
     * `options`, so the result is the stored server record itself.
     */
    function GetClient(types: TypeStore, dataStream: DataStream, options: Record): (r: Result<Record, Error>)
      ensures r.Ok? ==> r.value in influxdbServerClientFactory.serverConfig
      ensures r.Ok? ==> dataStream.typeId in types && Matches(r.value, ToPhpString(types[dataStream.typeId].serverId))
      ensures r.Ok? ==>
                && dataStream.typeId in types
                && exists i :: IsFirstMatch(influxdbServerClientFactory.serverConfig, ToPhpString(types[dataStream.typeId].serverId), i)
                               && r.value == influxdbServerClientFactory.serverConfig[i]
      ensures r.Err? <==> influxdbServerClientFactory.CreateClientFromDataStream(types, dataStream, options).Err?
      ensures r.Err? ==> r == influxdbServerClientFactory.CreateClientFromDataStream(types, dataStream, options)
    {
      var r := influxdbServerClientFactory.CreateClientFromDataStream(types, dataStream, map[]);
      if r.Ok? then
        ResolvedWithoutOptionsIsStored(influxdbServerClientFactory, ToPhpString(types[dataStream.typeId].serverId));
        r
      else
        r
    }

    /**
     * getClient as the interface documents it: the options are passed on and
     * override the server config. Passing `$options` on alone would not do:
     * the factory's `$server + $options` would still keep every stored value,
     * so this also uses the corrected merge `CreateClientWithOverrides`.
     */
    function GetClientWithOptions(types: TypeStore, dataStream: DataStream, options: Record): (r: Result<Record, Error>)
      ensures r.Ok? ==> forall k :: k in options ==> k in r.value && r.value[k] == options[k]
      ensures r.Ok? <==> GetClient(types, dataStream, options).Ok?
      ensures r.Err? ==> r == GetClient(types, dataStream, options)
      ensures r.Ok? ==> r.value == ArrayUnion(options, GetClient(types, dataStream, options).value)
    {
      match ConfiguredServerId(types, dataStream.typeId)
      case Err(e) => Err(e)
      case Ok(serverId) =>
        OverridesApplyToStoredRecord(this, types, dataStream, options, serverId);
        influxdbServerClientFactory.CreateClientWithOverrides(serverId, options)
    }
  }

  /** The corrected merge puts the options over exactly the record getClient returns. */
  lemma OverridesApplyToStoredRecord(plugin: InfluxdbBase, types: TypeStore, dataStream: DataStream, options: Record,
                                     serverId: string)
    requires ConfiguredServerId(types, dataStream.typeId) == Ok(serverId)
    ensures var g := plugin.GetClient(types, dataStream, options);
            var c := plugin.influxdbServerClientFactory.CreateClientWithOverrides(serverId, options);
            c.Ok? ==> g.Ok? && c.value == ArrayUnion(options, g.value)
  {
    var f := plugin.influxdbServerClientFactory;
    var g := plugin.GetClient(types, dataStream, options);
    if g.Ok? {
      var i :| IsFirstMatch(f.serverConfig, serverId, i) && g.value == f.serverConfig[i];
      OverridesApplyToFirstMatch(f, serverId, options, i);
    }
  }

  /** The options handed to getClient never change its result. */
  lemma GetClientIgnoresOptions(plugin: InfluxdbBase, types: TypeStore, dataStream: DataStream, o1: Record, o2: Record)
    ensures plugin.GetClient(types, dataStream, o1) == plugin.GetClient(types, dataStream, o2)
  {
  }

  /** A bucket requested through getClient's options is missing from the result. */
  lemma GetClientDropsOptions()
    ensures var plugin := InfluxdbBase(InfluxdbServerClientFactory([map["id" := Str("main"), "url" := Str("http://influx:8086")]]));
            var types := map["sensor" := DataStreamType("Sensor", Str("main"))];
            var r := plugin.GetClient(types, DataStream("sensor"), map["bucket" := Str("farm")]);
            r.Ok? && "bucket" !in r.value
  {
  }
}
