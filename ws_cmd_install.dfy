/**
  The websocket command that installs a plugin. Its parameter is the
  plugin name enclosed in quotes; the command collects it with `SetPar`,
  and `Execute` replies `ACK;<slot id>;<uid>` after a successful install
  (enabling and saving the plugin), `NACK;"reason"` otherwise, and then
  forgets the parameter and any error.
 */
module WsCommand {
  import opened Wrappers
  import opened ArduinoString

  type Uid = uint16
  type SlotId = uint8

  const DELIMITER: char := ';'
  const NACK_PARAMETER_INVALID: string := "NACK;\"Parameter invalid.\""
  const NACK_PLUGIN_NOT_FOUND: string := "NACK;\"Plugin not found.\""

  /** A call the command makes into the plugin and display managers. */
  datatype Call = InstallCall(name: string) | EnableCall(uid: Uid) | SaveCall

  /**
    Stands for the plugin manager and the display manager as the command
    sees them. What `install` returns and in which slot a plugin sits are
    given as functions of the calls made so far; the calls are recorded.
   */
  class Managers {
    const install: (seq<Call>, string) -> Option<Uid>
    const slotIdByPluginUid: (seq<Call>, Uid) -> SlotId
    var calls: seq<Call>

    constructor (install: (seq<Call>, string) -> Option<Uid>, slotIdByPluginUid: (seq<Call>, Uid) -> SlotId)
      ensures this.install == install && this.slotIdByPluginUid == slotIdByPluginUid
      ensures calls == []
    {
      this.install := install;
      this.slotIdByPluginUid := slotIdByPluginUid;
      calls := [];
    }

    /** Installs a plugin by name, giving its uid, or None if there is no such plugin. */
    method Install(name: string) returns (plugin: Option<Uid>)
      modifies this
      ensures plugin == install(old(calls), name)
      ensures calls == old(calls) + [InstallCall(name)]
    {
      plugin := install(calls, name);
      calls := calls + [InstallCall(name)];
    }

    /** The slot the plugin with this uid sits in, as the display manager
        answers after the calls made so far. */
    function GetSlotIdByPluginUid(uid: Uid): (slotId: SlotId)
      reads this
      ensures slotId == slotIdByPluginUid(calls, uid)
    {
      slotIdByPluginUid(calls, uid)
    }

    method Enable(uid: Uid)
      modifies this
      ensures calls == old(calls) + [EnableCall(uid)]
    {
      calls := calls + [EnableCall(uid)];
    }

    method Save()
      modifies this
      ensures calls == old(calls) + [SaveCall]
    {
      calls := calls + [SaveCall];
    }
  }

  /** The parameter without its first and last character, which should be the quotes. */
  function Unquote(par: string): (name: string)
    requires 2 <= |par|
    ensures |name| == |par| - 2
    ensures par == [par[0]] + name + [par[|par| - 1]]
  {
    par[1..|par| - 1]
  }

  /** How a client encloses a name in quotes. */
  function Quote(name: string): (quoted: string)
    ensures |quoted| == |name| + 2 && quoted[0] == '"' && quoted[|quoted| - 1] == '"'
  {
    "\"" + name + "\""
  }

  /** Unquoting takes back exactly what quoting added. */
  lemma UnquoteQuote(name: string)
    ensures Unquote(Quote(name)) == name
  {
  }

  /** The positive acknowledgement: three fields, "ACK", the slot id and the uid. */
  function AckReply(slotId: SlotId, uid: Uid): (reply: string) {
    "ACK" + [DELIMITER] + Decimal(slotId) + [DELIMITER] + Decimal(uid)
  }

  /** A client that splits the acknowledgement at the delimiter reads back the
      slot id and the uid, in that order. */
  lemma AckReplyRoundTrip(slotId: SlotId, uid: Uid)
    ensures Split(AckReply(slotId, uid), DELIMITER) == ["ACK", Decimal(slotId), Decimal(uid)]
    ensures ParseDecimal(Decimal(slotId)) == slotId && ParseDecimal(Decimal(uid)) == uid
  {
    DecimalHasNo(slotId, DELIMITER);
    DecimalHasNo(uid, DELIMITER);
    assert AckReply(slotId, uid) == "ACK" + [DELIMITER] + (Decimal(slotId) + [DELIMITER] + Decimal(uid));
    SplitField("ACK", DELIMITER, Decimal(slotId) + [DELIMITER] + Decimal(uid));
    SplitField(Decimal(slotId), DELIMITER, Decimal(uid));
    DecimalRoundTrip(slotId);
    DecimalRoundTrip(uid);
  }

  /** A negative acknowledgement: "NACK" and the quoted reason. */
  function NackReply(reason: string): (reply: string) {
    "NACK" + [DELIMITER] + Quote(reason)
  }

  /** A client that splits a negative acknowledgement at the delimiter reads
      two fields, "NACK" and the quoted reason. */
  lemma NackReplyFields(reason: string)
    requires DELIMITER !in reason
    ensures Split(NackReply(reason), DELIMITER) == ["NACK", Quote(reason)]
  {
    assert DELIMITER !in Quote(reason);
    SplitField("NACK", DELIMITER, Quote(reason));
  }

  /** The two negative replies of the command are negative acknowledgements. */
  lemma NackRepliesAreNackReplies()
    ensures NACK_PARAMETER_INVALID == NackReply("Parameter invalid.") && DELIMITER !in "Parameter invalid."
    ensures NACK_PLUGIN_NOT_FOUND == NackReply("Plugin not found.") && DELIMITER !in "Plugin not found."
  {
  }

  class WsCmdInstall {
    var isError: bool
    var pluginName: string

    constructor ()
      ensures !isError && pluginName == ""
    {
      isError := false;
      pluginName := "";
    }

    /** Takes the quoted plugin name as the only parameter. A parameter shorter
        than two characters, or a second parameter after a non-empty name,
        latches the error. */
    method SetPar(par: string)
      modifies this
      ensures if old(pluginName) == "" && 2 <= |par|
        then pluginName == Unquote(par) && isError == old(isError)
        else pluginName == old(pluginName) && isError
    {
      if |pluginName| == 0 && 2 <= |par| {
        pluginName := par;

        /* Remove the enclosing quotes */
        pluginName := pluginName[1..|pluginName| - 1];
      } else {
        isError := true;
      }
    }

    /**
      Installs the collected plugin and gives the reply sent to the client;
      without a server or a client nothing happens and no reply is sent.
     */
    method Execute(hasServer: bool, hasClient: bool, mgr: Managers) returns (reply: Option<string>)
      modifies this, mgr
      ensures !(hasServer && hasClient) ==>
        && reply == None
        && isError == old(isError) && pluginName == old(pluginName)
        && mgr.calls == old(mgr.calls)
      ensures hasServer && hasClient ==> !isError && pluginName == ""
      ensures hasServer && hasClient && old(isError) ==>
        reply == Some(NACK_PARAMETER_INVALID) && mgr.calls == old(mgr.calls)
      ensures hasServer && hasClient && !old(isError) ==>
        var afterInstall := old(mgr.calls) + [InstallCall(old(pluginName))];
        match mgr.install(old(mgr.calls), old(pluginName))
        case None =>
          reply == Some(NACK_PLUGIN_NOT_FOUND) && mgr.calls == afterInstall
        case Some(uid) =>
          && reply == Some(AckReply(mgr.slotIdByPluginUid(afterInstall, uid), uid))
          && mgr.calls == afterInstall + [EnableCall(uid), SaveCall]
    {
      if !hasServer || !hasClient {
        return None;
      }

      /* Any error happened? */
      if isError {
        reply := Some(NACK_PARAMETER_INVALID);
      } else {
        var rsp := "ACK";
        var plugin := mgr.Install(pluginName);

        match plugin {
          case None =>
            rsp := NACK_PLUGIN_NOT_FOUND;
          case Some(uid) =>
            rsp := rsp + [DELIMITER];
            rsp := rsp + Decimal(mgr.GetSlotIdByPluginUid(uid));
            rsp := rsp + [DELIMITER];
            rsp := rsp + Decimal(uid);

            mgr.Enable(uid);

            /* Save current installed plugins to persistent memory. */
            mgr.Save();
        }

        reply := Some(rsp);
      }

      isError := false;
      pluginName := "";
    }
  }
}
