/**
 * The client factory service: resolves a server id, a data stream type or a
 * data stream to the option bundle an InfluxDB client is built from.
 *
 * The stored server list is read once when the factory is made and never
 * changed, so the factory is a value and every resolution is a function of
 * that list, the data stream types and the caller's arguments. The client
 * object itself belongs to the InfluxDB SDK; the result here is the merged
 * option array that would be passed to it.
 */
module ClientFactory {
  import opened Wrappers
  import opened Php

  /** The errors a resolution can end in. */
  datatype Error =
    /** `serverConfig` is typed `array`; a missing `servers` setting (null) cannot be assigned. */
    | ServersNotArray
    /** No stored server has the requested id. */
    | ServerNotFound(serverId: string)
    /** The data stream type has no (or an empty) farm_influxdb `server_id` setting. */
    | ServerIdMissing(typeLabel: string)
    /** `DataStreamType::load` found no type, and a method is then called on null. */
    | TypeNotLoaded(typeId: string)

  const NotFoundPrefix := "The influxdb server id \""
  const NotFoundSuffix := "\" does not exist. Check the farm_influxdb configuration."
  const MissingPrefix := "The \""
  const MissingSuffix := "\" data stream type does not have an influxdb server id configured. Check the farm_influxdb configuration."

  ghost predicate OccursAt(message: string, part: string, i: int) {
    0 <= i <= |message| - |part| && message[i..i + |part|] == part
  }

  /** The message contains `part` somewhere. */
  ghost predicate Mentions(message: string, part: string) {
    exists i :: OccursAt(message, part, i)
  }

  /** The text of the exception or error each failure raises. */
  function Message(e: Error): (m: string)
    ensures e.ServerNotFound? ==> Mentions(m, e.serverId)
    ensures e.ServerIdMissing? ==> Mentions(m, e.typeLabel)
  {
    match e
    case ServersNotArray =>
      "Cannot assign null to property Drupal\\farm_influxdb\\InfluxdbServerClientFactory::$serverConfig of type array"
    case ServerNotFound(id) =>
      var m := NotFoundPrefix + id + NotFoundSuffix;
      assert OccursAt(m, id, |NotFoundPrefix|);
      m
    case ServerIdMissing(typeLabel) =>
      var m := MissingPrefix + typeLabel + MissingSuffix;
      assert OccursAt(m, typeLabel, |MissingPrefix|);
      m
    case TypeNotLoaded(_) =>
      "Call to a member function getThirdPartySetting() on null"
  }

  /** A data stream type: its label and its farm_influxdb `server_id` setting (Null when unset). */
  datatype DataStreamType = DataStreamType(typeLabel: string, serverId: Value)

  /** The data stream types that `DataStreamType::load` can find, by id. */
  type TypeStore = map<string, DataStreamType>

  /** A data stream entity, reduced to the id of the type it references. */
  datatype DataStream = DataStream(typeId: string)

  /**
   * The filter closure: the record has a non-null `id` identical (`===`) to
   * the requested string. Identity does no type juggling, so an id stored as
   * an integer never matches, even when it prints as the requested string.
   */
  function Matches(config: Record, serverId: string): (b: bool)
    ensures b <==> Get(config, "id") == Str(serverId)
    ensures Get(config, "id").Int? ==> !b
  {
    IsSet(config, "id") && config["id"] == Str(serverId)
  }

  ghost predicate NoMatch(servers: seq<Record>, serverId: string) {
    forall j :: 0 <= j < |servers| ==> !Matches(servers[j], serverId)
  }

  /** `i` is the position of the first record in list order with the requested id. */
  ghost predicate IsFirstMatch(servers: seq<Record>, serverId: string, i: int) {
    && 0 <= i < |servers|
    && Matches(servers[i], serverId)
    && forall j :: 0 <= j < i ==> !Matches(servers[j], serverId)
  }

  /** `array_filter` of the stored list with the id closure; keeps list order. */
  function FilterById(servers: seq<Record>, serverId: string): (r: seq<Record>)
    ensures |r| <= |servers|
    ensures forall k :: 0 <= k < |r| ==> Matches(r[k], serverId) && r[k] in servers
    ensures r == [] <==> NoMatch(servers, serverId)
  {
    if servers == [] then []
    else if Matches(servers[0], serverId) then [servers[0]] + FilterById(servers[1..], serverId)
    else
      var rest := FilterById(servers[1..], serverId);
      assert forall x :: x in servers[1..] ==> x in servers;
      rest
  }

  /** `reset()` of the filtered list is the first record, in list order, with the id. */
  lemma {:induction false} FilterStartsWithFirstMatch(servers: seq<Record>, serverId: string, i: int)
    requires IsFirstMatch(servers, serverId, i)
    ensures FilterById(servers, serverId) != []
    ensures FilterById(servers, serverId)[0] == servers[i]
  {
    if i > 0 {
      assert forall j :: 0 <= j < i - 1 ==> servers[1..][j] == servers[j + 1];
      FilterStartsWithFirstMatch(servers[1..], serverId, i - 1);
    }
  }

  /** Unless no record has the id, there is a first one. */
  lemma {:induction false} FirstMatchExists(servers: seq<Record>, serverId: string)
    requires !NoMatch(servers, serverId)
    ensures exists i :: IsFirstMatch(servers, serverId, i)
  {
    if Matches(servers[0], serverId) {
      assert IsFirstMatch(servers, serverId, 0);
    } else {
      assert !NoMatch(servers[1..], serverId) by {
        var j :| 0 <= j < |servers| && Matches(servers[j], serverId);
        assert servers[1..][j - 1] == servers[j];
      }
      FirstMatchExists(servers[1..], serverId);
      var i :| IsFirstMatch(servers[1..], serverId, i);
      assert IsFirstMatch(servers, serverId, i + 1);
    }
  }

  /** The factory service; `serverConfig` is the stored server list, set once at construction. */
  datatype InfluxdbServerClientFactory = InfluxdbServerClientFactory(serverConfig: seq<Record>) {

    /** createClientFromServerConfig: the first server with the id, unioned with the options. */
    function CreateClientFromServerConfig(serverId: string, options: Record): (r: Result<Record, Error>)
      ensures r.Err? <==> NoMatch(serverConfig, serverId)
      ensures r.Err? ==> r.error == ServerNotFound(serverId)
      ensures r.Ok? ==> Matches(r.value, serverId) && options.Keys <= r.value.Keys
    {
      var servers := FilterById(serverConfig, serverId);
      if servers == [] then Err(ServerNotFound(serverId))
      else Ok(ArrayUnion(servers[0], options))
    }

    /**
     * What the doc comment promises instead: the options override the stored
     * server config (`$options + $server`).
     */
    function CreateClientWithOverrides(serverId: string, options: Record): (r: Result<Record, Error>)
      ensures r.Err? <==> NoMatch(serverConfig, serverId)
      ensures r.Err? ==> r.error == ServerNotFound(serverId)
      ensures r.Ok? ==> forall k :: k in options ==> k in r.value && r.value[k] == options[k]
    {
      var servers := FilterById(serverConfig, serverId);
      if servers == [] then Err(ServerNotFound(serverId))
      else Ok(ArrayUnion(options, servers[0]))
    }

    /** createClientFromDataStreamType: resolve the type's `server_id`, then the server. */
    function CreateClientFromDataStreamType(types: TypeStore, typeId: string, options: Record): (r: Result<Record, Error>)
      ensures typeId !in types ==> r == Err(TypeNotLoaded(typeId))
      ensures typeId in types && IsEmpty(types[typeId].serverId) ==>
                r == Err(ServerIdMissing(types[typeId].typeLabel))
      ensures r.Ok? ==> typeId in types && Matches(r.value, ToPhpString(types[typeId].serverId))
    {
      match ConfiguredServerId(types, typeId)
      case Err(e) => Err(e)
      case Ok(serverId) => CreateClientFromServerConfig(serverId, options)
    }

    /** createClientFromDataStream: resolve through the type the stream references. */
    function CreateClientFromDataStream(types: TypeStore, dataStream: DataStream, options: Record): (r: Result<Record, Error>)
      ensures dataStream.typeId !in types ==> r == Err(TypeNotLoaded(dataStream.typeId))
      ensures dataStream.typeId in types && IsEmpty(types[dataStream.typeId].serverId) ==>
                r == Err(ServerIdMissing(types[dataStream.typeId].typeLabel))
      ensures r.Ok? ==>
                dataStream.typeId in types && Matches(r.value, ToPhpString(types[dataStream.typeId].serverId))
      ensures dataStream.typeId in types && !IsEmpty(types[dataStream.typeId].serverId) ==>
                r == CreateClientFromServerConfig(ToPhpString(types[dataStream.typeId].serverId), options)
    {
      CreateClientFromDataStreamType(types, dataStream.typeId, options)
    }
  }

  /**
   * The constructor: reads the `servers` setting once. It must be an array
   * for the typed property; the factory then searches its records in the
   * list's iteration order.
   */
  function NewFactory(servers: Option<RecordList>): (r: Result<InfluxdbServerClientFactory, Error>)
    ensures r.Ok? <==> servers.Some?
    ensures r.Ok? ==> r.value.serverConfig == Values(servers.value)
    ensures r.Err? ==> r.error == ServersNotArray
  {
    match servers
    case None => Err(ServersNotArray)
    case Some(list) => Ok(InfluxdbServerClientFactory(Values(list)))
  }

  /**
   * The type's `server_id` setting as the string passed on: a PHP-empty
   * setting (absent, "", "0", 0, false) is rejected with the type's label.
   */
  function ConfiguredServerId(types: TypeStore, typeId: string): (r: Result<string, Error>)
    ensures typeId !in types ==> r == Err(TypeNotLoaded(typeId))
    ensures typeId in types && IsEmpty(types[typeId].serverId) ==>
              r == Err(ServerIdMissing(types[typeId].typeLabel))
    ensures r.Ok? ==> typeId in types && r.value == ToPhpString(types[typeId].serverId)
    ensures typeId in types && !IsEmpty(types[typeId].serverId) ==> r == Ok(ToPhpString(types[typeId].serverId))
    ensures r.Ok? ==> r.value != "" && r.value != "0"
  {
    if typeId !in types then Err(TypeNotLoaded(typeId))
    else
      var setting := types[typeId].serverId;
      if IsEmpty(setting) then Err(ServerIdMissing(types[typeId].typeLabel))
      else Ok(ToPhpString(setting))
  }

  /** A resolved server is the first stored record with the id, unioned with the options. */
  lemma ResolvesToFirstMatch(f: InfluxdbServerClientFactory, serverId: string, options: Record, i: int)
    requires IsFirstMatch(f.serverConfig, serverId, i)
    ensures f.CreateClientFromServerConfig(serverId, options) == Ok(ArrayUnion(f.serverConfig[i], options))
  {
    FilterStartsWithFirstMatch(f.serverConfig, serverId, i);
  }

  /** A later record with the same id is never used: only its first holder counts. */
  lemma LaterDuplicateIgnored(f: InfluxdbServerClientFactory, serverId: string, i: int, j: int)
    requires IsFirstMatch(f.serverConfig, serverId, i)
    requires i < j < |f.serverConfig| && Matches(f.serverConfig[j], serverId)
    requires f.serverConfig[j] != f.serverConfig[i]
    ensures f.CreateClientFromServerConfig(serverId, map[]) != Ok(f.serverConfig[j])
  {
    ResolvesToFirstMatch(f, serverId, map[], i);
    UnionWithEmpty(f.serverConfig[i]);
  }

  /** With no options the result is the stored record, exactly. */
  lemma EmptyOptionsGiveStoredRecord(f: InfluxdbServerClientFactory, serverId: string, i: int)
    requires IsFirstMatch(f.serverConfig, serverId, i)
    ensures f.CreateClientFromServerConfig(serverId, map[]) == Ok(f.serverConfig[i])
  {
    ResolvesToFirstMatch(f, serverId, map[], i);
    UnionWithEmpty(f.serverConfig[i]);
  }

  /**
   * Without options a successful resolution returns a stored record unchanged:
   * the one at the first position holding the id.
   */
  lemma ResolvedWithoutOptionsIsStored(f: InfluxdbServerClientFactory, serverId: string)
    ensures var r := f.CreateClientFromServerConfig(serverId, map[]);
            r.Ok? ==> r.value in f.serverConfig
                      && exists i :: IsFirstMatch(f.serverConfig, serverId, i) && r.value == f.serverConfig[i]
  {
    if !NoMatch(f.serverConfig, serverId) {
      FirstMatchExists(f.serverConfig, serverId);
      var i :| IsFirstMatch(f.serverConfig, serverId, i);
      EmptyOptionsGiveStoredRecord(f, serverId, i);
    }
  }

  /** Every stored key keeps its stored value; an option only adds a key the record lacks. */
  lemma StoredValuesWin(f: InfluxdbServerClientFactory, serverId: string, options: Record, i: int)
    requires IsFirstMatch(f.serverConfig, serverId, i)
    ensures var r := f.CreateClientFromServerConfig(serverId, options);
            && r.Ok?
            && r.value.Keys == f.serverConfig[i].Keys + options.Keys
            && (forall k :: k in f.serverConfig[i] ==> r.value[k] == f.serverConfig[i][k])
            && (forall k :: k in options && k !in f.serverConfig[i] ==> r.value[k] == options[k])
  {
    ResolvesToFirstMatch(f, serverId, options, i);
  }

  /** A stored timeout of 10 is kept although the caller asks for 30. */
  lemma StoredValueShadowsOption()
    ensures var f := InfluxdbServerClientFactory([map["id" := Str("main"), "timeout" := Int(10)]]);
            var r := f.CreateClientFromServerConfig("main", map["timeout" := Int(30)]);
            r.Ok? && r.value["timeout"] == Int(10)
  {
  }

  /** With overriding options the first match is still the one used, under the options. */
  lemma OverridesApplyToFirstMatch(f: InfluxdbServerClientFactory, serverId: string, options: Record, i: int)
    requires IsFirstMatch(f.serverConfig, serverId, i)
    ensures f.CreateClientWithOverrides(serverId, options) == Ok(ArrayUnion(options, f.serverConfig[i]))
  {
    FilterStartsWithFirstMatch(f.serverConfig, serverId, i);
  }

  /** The code as written and the documented override agree when options and record share no key. */
  lemma MergesAgreeWithoutCollisions(f: InfluxdbServerClientFactory, serverId: string, options: Record, i: int)
    requires IsFirstMatch(f.serverConfig, serverId, i)
    requires options.Keys !! f.serverConfig[i].Keys
    ensures f.CreateClientWithOverrides(serverId, options) == f.CreateClientFromServerConfig(serverId, options)
  {
    ResolvesToFirstMatch(f, serverId, options, i);
    OverridesApplyToFirstMatch(f, serverId, options, i);
    UnionOfDisjointCommutes(options, f.serverConfig[i]);
  }

  /** Resolving by type is resolving by the type's `server_id`, with the same options. */
  lemma TypeResolutionDelegates(f: InfluxdbServerClientFactory, types: TypeStore, typeId: string, options: Record)
    requires typeId in types && !IsEmpty(types[typeId].serverId)
    ensures f.CreateClientFromDataStreamType(types, typeId, options)
            == f.CreateClientFromServerConfig(ToPhpString(types[typeId].serverId), options)
  {
  }

  /** A missing `server_id` fails the same way whatever servers are stored: no lookup happens. */
  lemma MissingServerIdSkipsLookup(f: InfluxdbServerClientFactory, g: InfluxdbServerClientFactory,
                                   types: TypeStore, typeId: string, options: Record)
    requires typeId in types && IsEmpty(types[typeId].serverId)
    ensures f.CreateClientFromDataStreamType(types, typeId, options)
            == g.CreateClientFromDataStreamType(types, typeId, options)
            == Err(ServerIdMissing(types[typeId].typeLabel))
  {
  }

  /** Whether resolution fails, and how, does not depend on the options. */
  lemma FailureIndependentOfOptions(f: InfluxdbServerClientFactory, types: TypeStore, dataStream: DataStream,
                                    o1: Record, o2: Record)
    ensures f.CreateClientFromDataStream(types, dataStream, o1).Err?
            == f.CreateClientFromDataStream(types, dataStream, o2).Err?
    ensures f.CreateClientFromDataStream(types, dataStream, o1).Err? ==>
              f.CreateClientFromDataStream(types, dataStream, o1) == f.CreateClientFromDataStream(types, dataStream, o2)
  {
  }
}
