/** The decoding of the camera servers' JSON replies, `ReadServer.__init__`
    in hcam_widgets/misc.py: from the decoded reply to the attributes `ok`,
    `err`, `state`, `clocks`, `run` and `msg`. */
module ServerReply {
  import opened Wrappers
  import opened Json

  /** The attributes a `ReadServer` object ends up with. `run` and `msg` are
      `None` when the constructor returns without setting them; `state` and
      `clocks` are `JNull` where it sets them to `None`. */
  datatype Reply = Reply(
    root: Json,
    ok: bool,
    err: string,
    state: Json,
    clocks: Json,
    run: Option<int>,
    msg: Option<Json>)

  /** The empty dictionary the constructor resets `root` to. */
  const EmptyRoot: Json := JObject(map[])

  /** A reply that reports a failure with `err`, `state` and `clocks` set to
      `None` and `run`, `msg` left unset. */
  function Failed(root: Json, err: string): Reply {
    Reply(root, false, err, JNull, JNull, None, None)
  }

  /** The exceptions the run-number block catches, turning them into run 0. */
  predicate Caught(e: Exception) {
    e == ValueError || e == IndexError || e == AttributeError
  }

  /** The run-number block. `runNumber` stands for
      `int(re.match('\D*(\d*).*.fits', name).group(1))`: a run number, or the
      exception the match or the conversion raises. The number is the one
      in the file name for a finished or aborted exposure, the next one
      while integrating, and 0 for any other exposure state or when the
      number cannot be read; an exception the block does not catch
      escapes. */
  function RunNumber(fileName: Json, expState: Json, runNumber: Json -> Result<nat, Exception>): (r: Result<int, Exception>)
    ensures r.Success? ==> r.value >= 0
    ensures r.Failure? <==> runNumber(fileName).Failure? && !Caught(runNumber(fileName).error)
    ensures r.Failure? ==> r.error == runNumber(fileName).error
    ensures runNumber(fileName).Success? && (expState == JString("success") || expState == JString("aborted"))
      ==> r == Success(runNumber(fileName).value)
    ensures runNumber(fileName).Success? && expState == JString("integrating")
      ==> r == Success(runNumber(fileName).value + 1)
    ensures runNumber(fileName).Success?
      && expState !in {JString("success"), JString("aborted"), JString("integrating")}
      ==> r == Success(0)
    ensures runNumber(fileName).Failure? && Caught(runNumber(fileName).error) ==> r == Success(0)
  {
    match runNumber(fileName)
    case Failure(e) => if Caught(e) then Success(0) else Failure(e)
    case Success(n) =>
      if expState == JString("success") then Success(n)
      else if expState == JString("aborted") then Success(n)
      else if expState == JString("integrating") then Success(n + 1)
      else Success(0)
  }

  /** `ReadServer(resp, status_msg)`. `decoded` is `json.loads(resp.decode())`,
      `None` when that raises; `isErr` stands for the identity test
      `sfind is 'ERR'`. Missing keys raise, as in the source, where the
      lookups sit outside any `try`. */
  function ReadServer(decoded: Option<Json>, statusMsg: bool, isErr: Json -> bool,
                      runNumber: Json -> Result<nat, Exception>): (r: Result<Reply, Exception>)
    ensures decoded.None? ==> r.Success? && !r.value.ok
    ensures r.Failure? ==> !Caught(r.error)
    ensures r.Success? && r.value.ok ==> r.value.err == ""
    ensures r.Success? && !r.value.ok ==> r.value.err != "" || !statusMsg
    ensures r.Success? && r.value.run.Some? ==> r.value.run.value >= 0
    ensures r.Success? && r.value.msg.Some? ==> !statusMsg
  {
    match decoded
    case None => Success(Failed(EmptyRoot, "Could not parse JSON response"))
    case Some(root) =>
      var has :- HasKey(root, "RETCODE");
      if !has then Success(Failed(root, "Could not identify status"))
      else
        var code :- Lookup(root, "RETCODE");
        var ok := code == JString("OK");
        if !statusMsg then
          var msg :- Lookup(root, "MESSAGEBUFFER");
          Success(Reply(root, ok, "", JNull, JNull, Some(0), Some(msg)))
        else
          var sub :- Lookup(root, "system.subStateName");
          if isErr(sub) then Success(Failed(EmptyRoot, "Could not identify state"))
          else
            var clk :- Lookup(root, "cldc_0.statusName");
            if isErr(clk) then Success(Failed(EmptyRoot, "Could not identify clock status"))
            else
              var fileName :- Lookup(root, "exposure.newDataFileName");
              var expState :- Lookup(root, "exposure.expStatusName");
              var run :- RunNumber(fileName, expState, runNumber);
              Success(Reply(root, true, "", sub, clk, Some(run), None))
  }

  /** When the reply is healthy, stated independently of the decision tree:
      a dictionary with a return code that, for a status reply, names a
      state and a clock status that are not the error marker, and otherwise
      says OK. */
  predicate Healthy(decoded: Option<Json>, statusMsg: bool, isErr: Json -> bool) {
    && decoded.Some? && decoded.value.JObject?
    && var m := decoded.value.fields;
    && "RETCODE" in m
    && (statusMsg ==>
          && "system.subStateName" in m && !isErr(m["system.subStateName"])
          && "cldc_0.statusName" in m && !isErr(m["cldc_0.statusName"]))
    && (!statusMsg ==> m["RETCODE"] == JString("OK"))
  }

  /** Whenever the constructor returns, `ok` holds exactly for a healthy
      reply. */
  lemma OkIffHealthy(decoded: Option<Json>, statusMsg: bool, isErr: Json -> bool,
                     runNumber: Json -> Result<nat, Exception>)
    requires ReadServer(decoded, statusMsg, isErr, runNumber).Success?
    ensures ReadServer(decoded, statusMsg, isErr, runNumber).value.ok <==> Healthy(decoded, statusMsg, isErr)
  {
  }

  /** An undecodable reply gives `ok` false, the fixed message, `state` and
      `clocks` `None` and an empty `root`. */
  lemma Undecodable(statusMsg: bool, isErr: Json -> bool, runNumber: Json -> Result<nat, Exception>)
    ensures ReadServer(None, statusMsg, isErr, runNumber)
      == Success(Reply(EmptyRoot, false, "Could not parse JSON response", JNull, JNull, None, None))
  {
  }

  /** A dictionary without `RETCODE` gives `ok` false, the fixed message and
      `state` and `clocks` `None`; `root` is kept. */
  lemma NoRetcode(m: map<string, Json>, statusMsg: bool, isErr: Json -> bool,
                  runNumber: Json -> Result<nat, Exception>)
    requires "RETCODE" !in m
    ensures ReadServer(Some(JObject(m)), statusMsg, isErr, runNumber)
      == Success(Reply(JObject(m), false, "Could not identify status", JNull, JNull, None, None))
  {
  }

  /** Without `status_msg`: `ok` holds exactly when `RETCODE` is `"OK"`, the
      run is 0, `err` is empty and `msg` is the message buffer; a reply with
      no message buffer raises a KeyError. */
  lemma PlainReply(m: map<string, Json>, isErr: Json -> bool, runNumber: Json -> Result<nat, Exception>)
    requires "RETCODE" in m
    ensures var r := ReadServer(Some(JObject(m)), false, isErr, runNumber);
      && (r.Success? <==> "MESSAGEBUFFER" in m)
      && (r.Failure? ==> r.error == KeyError("MESSAGEBUFFER"))
      && (r.Success? ==>
            && (r.value.ok <==> m["RETCODE"] == JString("OK"))
            && r.value.run == Some(0) && r.value.err == ""
            && r.value.msg == Some(m["MESSAGEBUFFER"])
            && r.value.state == JNull && r.value.clocks == JNull)
  {
  }

  /** With `status_msg`, once the state and clock status are read and are
      not the error marker, `ok` holds whatever `RETCODE` says, and `state`
      and `clocks` are the reply's own values. */
  lemma StatusReply(m: map<string, Json>, isErr: Json -> bool, runNumber: Json -> Result<nat, Exception>)
    requires "RETCODE" in m
    requires "system.subStateName" in m && !isErr(m["system.subStateName"])
    requires "cldc_0.statusName" in m && !isErr(m["cldc_0.statusName"])
    requires "exposure.newDataFileName" in m && "exposure.expStatusName" in m
    requires runNumber(m["exposure.newDataFileName"]).Success?
      || Caught(runNumber(m["exposure.newDataFileName"]).error)
    ensures var r := ReadServer(Some(JObject(m)), true, isErr, runNumber);
      && r.Success? && r.value.ok && r.value.err == ""
      && r.value.state == m["system.subStateName"]
      && r.value.clocks == m["cldc_0.statusName"]
      && r.value.run.Some?
  {
  }
}
