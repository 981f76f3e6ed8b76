/**
 * The settings form's bookkeeping of the server list: initialising the list
 * in the form state from configuration, the per-row display defaults, the
 * add and remove handlers, and saving the list back to configuration.
 */
module SettingsForm {
  import opened Wrappers
  import opened Php

  /** The record addServer appends when the list holds `count` servers. */
  function NewServerRecord(count: nat): (r: Record)
    ensures Get(r, "label") == Str("Server " + NatToDecimal(count + 1))
    ensures Get(r, "verifySSL") == Bool(true)
    ensures !IsSet(r, "id")
    ensures r.Keys == {"label", "verifySSL"}
  {
    map["label" := Str("Server " + NatToDecimal(count + 1)), "verifySSL" := Bool(true)]
  }

  /** The list effect of addServer: the new record appended under the next free index. */
  function WithServerAdded(servers: RecordList): RecordList {
    Append(servers, NewServerRecord(|servers.entries|))
  }

  /**
   * The fieldset title of a row: it starts with the label, and adds " (id)"
   * exactly when the id is not PHP-empty.
   */
  function DetailsTitle(server: Record): (title: string)
    ensures var caption := ToPhpString(Get(server, "label"));
            && |title| >= |caption| && title[..|caption|] == caption
            && (!IsEmpty(Get(server, "id")) <==> |title| > |caption|)
            && (!IsEmpty(Get(server, "id")) ==> title[|caption|..] == " (" + ToPhpString(Get(server, "id")) + ")")
  {
    var caption := ToPhpString(Get(server, "label"));
    if !IsEmpty(Get(server, "id")) then caption + " (" + ToPhpString(Get(server, "id")) + ")" else caption
  }

  /** What one row of the form shows: its title and the default value of each field. */
  datatype ServerRow = ServerRow(
    title: string,
    id: Value,
    serverLabel: Value,
    url: Value,
    token: Value,
    org: Value,
    bucket: Value,
    timeout: Value,
    verifySSL: Value)

  /** The row built for one stored server, with timeout 10 and SSL verification on by default. */
  function RowFor(server: Record): (row: ServerRow)
    ensures row.title == DetailsTitle(server)
    ensures && row.id == Get(server, "id") && row.serverLabel == Get(server, "label") && row.url == Get(server, "url")
            && row.token == Get(server, "token") && row.org == Get(server, "org") && row.bucket == Get(server, "bucket")
    ensures row.timeout != Null && row.verifySSL != Null
    ensures IsSet(server, "timeout") ==> row.timeout == server["timeout"]
    ensures !IsSet(server, "timeout") ==> row.timeout == Int(10)
    ensures IsSet(server, "verifySSL") ==> row.verifySSL == server["verifySSL"]
    ensures !IsSet(server, "verifySSL") ==> row.verifySSL == Bool(true)
  {
    ServerRow(
      DetailsTitle(server),
      Get(server, "id"),
      Get(server, "label"),
      Get(server, "url"),
      Get(server, "token"),
      Get(server, "org"),
      Get(server, "bucket"),
      Coalesce(Get(server, "timeout"), Int(10)),
      Coalesce(Get(server, "verifySSL"), Bool(true)))
  }

  /** The form state's `servers` value (null until set) and its rebuild flag. */
  class FormState {
    var servers: Option<RecordList>
    var rebuild: bool

    constructor ()
      ensures servers == None && !rebuild
    {
      servers := None;
      rebuild := false;
    }
  }

  /** The `farm_influxdb.settings` configuration object; `servers` is null until saved. */
  class Config {
    var servers: Option<RecordList>

    constructor (servers: Option<RecordList>)
      ensures this.servers == servers
    {
      this.servers := servers;
    }
  }

  class InfluxdbSettingsForm {
    const config: Config

    constructor (config: Config)
      ensures this.config == config
    {
      this.config := config;
    }

    /**
     * buildForm: seeds the form state's list from configuration (or `[]`)
     * when it is not set yet, then builds one row per server.
     */
    method BuildForm(formState: FormState) returns (rows: seq<(int, ServerRow)>)
      modifies formState
      ensures old(formState.servers).Some? ==> formState.servers == old(formState.servers)
      ensures old(formState.servers).None? ==> formState.servers == Some(config.servers.GetOr(EmptyList))
      ensures formState.rebuild == old(formState.rebuild)
      ensures formState.servers.Some?
      ensures |rows| == |formState.servers.value.order|
      ensures forall i :: 0 <= i < |rows| ==>
                rows[i] == (formState.servers.value.order[i], RowFor(Values(formState.servers.value)[i]))
    {
      if formState.servers.None? {
        formState.servers := Some(config.servers.GetOr(EmptyList));
      }
      var servers := formState.servers.value;
      var configs := Values(servers);
      rows := [];
      for n := 0 to |servers.order|
        invariant |rows| == n
        invariant forall i :: 0 <= i < n ==> rows[i] == (servers.order[i], RowFor(configs[i]))
      {
        var delta := servers.order[n];
        rows := rows + [(delta, RowFor(configs[n]))];
      }
    }

    /**
     * addServer: appends a new server record and marks the form for rebuild.
     * `count()` of a null list throws, and then nothing changes.
     */
    method AddServer(formState: FormState) returns (added: bool)
      modifies formState
      ensures added <==> old(formState.servers).Some?
      ensures added ==> formState.servers == Some(WithServerAdded(old(formState.servers).value)) && formState.rebuild
      ensures !added ==> unchanged(formState)
    {
      if formState.servers.None? {
        return false;
      }
      var servers := formState.servers.value;
      servers := Append(servers, NewServerRecord(|servers.entries|));
      formState.servers := Some(servers);
      formState.rebuild := true;
      added := true;
    }

    /** removeServer: deletes the row at `delta` and marks the form for rebuild. */
    method RemoveServer(formState: FormState, delta: int)
      modifies formState
      ensures old(formState.servers).None? ==> formState.servers == None
      ensures old(formState.servers).Some? ==>
                formState.servers == Some(Unset(old(formState.servers).value, delta))
      ensures formState.rebuild
    {
      var servers := formState.servers;
      if servers.Some? {
        servers := Some(Unset(servers.value, delta));
      }
      formState.servers := servers;
      formState.rebuild := true;
    }

    /** submitForm: saves the form state's list verbatim, or `[]` when it is null. */
    method SubmitForm(formState: FormState)
      modifies config
      ensures config.servers == Some(formState.servers.GetOr(EmptyList))
    {
      config.servers := Some(formState.servers.GetOr(EmptyList));
    }
  }

  /**
   * addServer leaves every existing entry in place and puts one record after
   * them all, labelled "Server N" with N one more than the current count and
   * with SSL verification on.
   */
  lemma AddedServerComesLast(servers: RecordList)
    ensures var r := WithServerAdded(servers);
            && |Values(r)| == |Values(servers)| + 1
            && Values(r)[..|Values(servers)|] == Values(servers)
            && Get(Values(r)[|Values(servers)|], "label") == Str("Server " + NatToDecimal(|servers.entries| + 1))
            && Get(Values(r)[|Values(servers)|], "verifySSL") == Bool(true)
            && (forall k :: k in servers.entries ==> k in r.entries && r.entries[k] == servers.entries[k])
  {
  }

  /** Removing the entry just added gives back the same keys, order and entries. */
  lemma RemoveUndoesAdd(servers: RecordList)
    ensures var r := Unset(WithServerAdded(servers), servers.nextFree);
            r.order == servers.order && r.entries == servers.entries
  {
    UnsetUndoesAppend(servers, NewServerRecord(|servers.entries|));
  }

  /** Removing a key that is not there changes nothing. */
  lemma RemoveAbsentIsNoOp(servers: RecordList, delta: int)
    requires delta !in servers.entries
    ensures Unset(servers, delta) == servers
  {
  }

  /**
   * Labels number from the count, not from the keys: when some remaining row
   * is already labelled "Server N" for N the current count, removing another
   * row and adding one gives two rows with that label (add two servers,
   * remove the first, add again: two rows say "Server 2").
   */
  lemma RemoveThenAddRepeatsLabel(servers: RecordList, delta: int, k: int)
    requires delta in servers.entries && k in servers.entries && k != delta
    requires Get(servers.entries[k], "label") == Str("Server " + NatToDecimal(|servers.entries|))
    ensures var after := WithServerAdded(Unset(servers, delta));
            && k in after.entries && servers.nextFree in after.entries && k != servers.nextFree
            && Get(after.entries[k], "label") == Get(after.entries[servers.nextFree], "label")
  {
    var removed := Unset(servers, delta);
    UnsetDropsOneEntry(servers, delta);
    var record := NewServerRecord(|removed.entries|);
    var after := Append(removed, record);
    assert k in removed.entries && removed.entries[k] == servers.entries[k];
    assert servers.nextFree !in removed.entries && after.entries[servers.nextFree] == record;
  }

  /** `unset` of a present key drops exactly one entry and keeps the next free index. */
  lemma UnsetDropsOneEntry(servers: RecordList, delta: int)
    requires delta in servers.entries
    ensures |Unset(servers, delta).entries| == |servers.entries| - 1
    ensures Unset(servers, delta).nextFree == servers.nextFree
  {
    var removed := Unset(servers, delta);
    assert |removed.entries.Keys| == |servers.entries.Keys - {delta}| == |servers.entries.Keys| - 1;
  }
}
