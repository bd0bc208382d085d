/** Helper capabilities, security gates and the messages a helper tab sends. */
module Gates {
  import opened Prelude

  type Origin = string

  /** An instance URL together with the origin it normalizes to, if it does. */
  datatype Url = Url(text: string, origin: Option<Origin>)

  datatype SnuInstance = SnuInstance(name: string, url: Url, token: Option<string>, scope: Option<string>) {
    predicate HasToken() {
      token.Some? && token.value != ""
    }
  }

  datatype GateMode = Off | Approve | Auto

  datatype GateName = BackgroundScripts | DeleteRecords | CreateArtifacts | RestRequest | BrowserDebugger

  datatype InstanceGates = InstanceGates(
    backgroundScripts: GateMode,
    deleteRecords: GateMode,
    createArtifacts: GateMode,
    restRequest: GateMode,
    browserDebugger: GateMode)
  {
    function Mode(gate: GateName): GateMode {
      match gate
      case BackgroundScripts => backgroundScripts
      case DeleteRecords => deleteRecords
      case CreateArtifacts => createArtifacts
      case RestRequest => restRequest
      case BrowserDebugger => browserDebugger
    }
  }

  datatype GateSnapshot = GateSnapshot(revision: nat, gates: InstanceGates)

  /** What a helper answered to a capability query, origins already canonical. */
  datatype Report = Report(gateVersion: Option<nat>, instanceGates: map<Origin, GateSnapshot>) {
    predicate SupportsGates() {
      gateVersion.Some? && gateVersion.value > 0
    }
  }

  /** An outbound action; `rest` stands for the fields the broker never reads. */
  datatype Payload = Payload(
    action: Option<string>,
    httpMethod: Option<string>,
    instance: Option<SnuInstance>,
    url: Option<Url>,
    rest: string)
  {
    /** The origin the action targets: its instance's, else its own URL's. */
    function TargetOrigin(): Option<Origin> {
      if instance.Some? then instance.value.url.origin
      else if url.Some? then url.value.origin
      else None
    }
  }

  function AsciiUpper(s: string): string {
    seq(|s|, i requires 0 <= i < |s| =>
      if 'a' <= s[i] <= 'z' then ((s[i] as int) - 32) as char else s[i])
  }

  function GateForPayload(payload: Payload): Option<GateName> {
    if payload.action.None? then None
    else
      var action := payload.action.value;
      if action == "executeBackgroundScript" || action == "agentRunBackgroundScript" then
        Some(BackgroundScripts)
      else if action == "createRecord" || action == "uploadAttachment" then
        Some(CreateArtifacts)
      else if action == "takeScreenshot" then
        Some(BrowserDebugger)
      else if action == "agentRestApi" then
        var verb := AsciiUpper(if payload.httpMethod.Some? then payload.httpMethod.value else "GET");
        if verb == "GET" || verb == "HEAD" || verb == "OPTIONS" then None
        else if verb == "DELETE" then Some(DeleteRecords)
        else Some(RestRequest)
      else if "agentCdp" <= action then
        Some(BrowserDebugger)
      else
        None
  }

  datatype Support = Unknown | LegacyUnrestricted | Gated {
    function Rank(): nat {
      match this
      case Unknown => 0
      case LegacyUnrestricted => 1
      case Gated => 2
    }
  }

  /** Gate state of one helper connection; `build` is the gate version it pushed. */
  datatype HelperStatus = HelperStatus(
    generation: nat,
    support: Support,
    build: Option<Option<nat>>,
    instanceGates: map<Origin, GateSnapshot>)
  {
    predicate AdvertisesGates() {
      build.Some? && build.value.Some? && build.value.value > 0
    }

    function ApplySnapshot(origin: Origin, snapshot: GateSnapshot): HelperStatus {
      if origin !in instanceGates || snapshot.revision > instanceGates[origin].revision then
        this.(instanceGates := instanceGates[origin := snapshot])
      else
        this
    }
  }

  function FreshStatus(generation: nat): HelperStatus {
    HelperStatus(generation, Unknown, None, map[])
  }

  /** Gate table after applying every snapshot of a report, in any order. */
  function MergeGates(gates: map<Origin, GateSnapshot>, report: map<Origin, GateSnapshot>): map<Origin, GateSnapshot> {
    map o | o in gates.Keys + report.Keys ::
      if o !in gates then report[o]
      else if o in report && report[o].revision > gates[o].revision then report[o]
      else gates[o]
  }

  /** The snapshot the revision rule keeps out of a history: the first of maximal revision. */
  function Winner(history: seq<GateSnapshot>): (w: GateSnapshot)
    requires history != []
  {
    var n := |history| - 1;
    if n == 0 then history[0]
    else
      var earlier := Winner(history[..n]);
      if history[n].revision > earlier.revision then history[n] else earlier
  }

  lemma {:induction false} WinnerIsFirstMaximal(history: seq<GateSnapshot>) returns (k: nat)
    requires history != []
    ensures k < |history| && Winner(history) == history[k]
    ensures forall j :: 0 <= j < |history| ==> history[j].revision <= history[k].revision
    ensures forall j :: 0 <= j < k ==> history[j].revision < history[k].revision
  {
    var n := |history| - 1;
    if n == 0 {
      k := 0;
    } else {
      k := WinnerIsFirstMaximal(history[..n]);
      assert history[..n][k] == history[k];
      assert forall j :: 0 <= j < n ==> history[..n][j] == history[j];
      if history[n].revision > Winner(history[..n]).revision {
        k := n;
      }
    }
  }

  // --- Gates by name --------------------------------------------------------------------

  /** Each gate is a setting of its own: changing it changes its mode and no other's. */
  lemma GatesAreIndependent(gates: InstanceGates, mode: GateMode, gate: GateName)
    ensures gates.(backgroundScripts := mode).Mode(gate) == if gate.BackgroundScripts? then mode else gates.Mode(gate)
    ensures gates.(deleteRecords := mode).Mode(gate) == if gate.DeleteRecords? then mode else gates.Mode(gate)
    ensures gates.(createArtifacts := mode).Mode(gate) == if gate.CreateArtifacts? then mode else gates.Mode(gate)
    ensures gates.(restRequest := mode).Mode(gate) == if gate.RestRequest? then mode else gates.Mode(gate)
    ensures gates.(browserDebugger := mode).Mode(gate) == if gate.BrowserDebugger? then mode else gates.Mode(gate)
  {
  }

  /** `s` spells an upper-case word in any case. */
  predicate Spells(s: string, word: string) {
    |s| == |word| && forall i :: 0 <= i < |s| ==>
      s[i] == word[i] || ('A' <= word[i] <= 'Z' && s[i] as int == word[i] as int + 32)
  }

  lemma UpperSpells(s: string, word: string)
    requires forall i :: 0 <= i < |word| ==> 'A' <= word[i] <= 'Z'
    ensures AsciiUpper(s) == word <==> Spells(s, word)
  {
    if AsciiUpper(s) == word {
      forall i | 0 <= i < |s| ensures s[i] == word[i] || s[i] as int == word[i] as int + 32 {
        assert AsciiUpper(s)[i] == word[i];
      }
    }
  }

  /** The actions that are gated, by gate; a REST request is read-only without a method. */
  lemma GatesByAction(p: Payload)
    requires p.action.Some?
    ensures var action, gate := p.action.value, GateForPayload(p);
            && (gate == Some(BackgroundScripts) <==> action == "executeBackgroundScript" || action == "agentRunBackgroundScript")
            && (gate == Some(CreateArtifacts) <==> action == "createRecord" || action == "uploadAttachment")
            && (gate == Some(BrowserDebugger) <==> action == "takeScreenshot" || "agentCdp" <= action)
    ensures var action, gate := p.action.value, GateForPayload(p);
            && (gate == Some(DeleteRecords) <==> action == "agentRestApi" && p.httpMethod.Some? && Spells(p.httpMethod.value, "DELETE"))
            && (gate == Some(RestRequest) <==>
                  action == "agentRestApi" && p.httpMethod.Some? && !Spells(p.httpMethod.value, "DELETE")
                  && !Spells(p.httpMethod.value, "GET") && !Spells(p.httpMethod.value, "HEAD") && !Spells(p.httpMethod.value, "OPTIONS"))
  {
    var verb := if p.httpMethod.Some? then p.httpMethod.value else "GET";
    UpperSpells(verb, "DELETE");
    UpperSpells(verb, "GET");
    UpperSpells(verb, "HEAD");
    UpperSpells(verb, "OPTIONS");
    SpelledGet();
    DebuggerActions(p.action.value);
    hide Spells, AsciiUpper;
  }

  lemma SpelledGet()
    ensures Spells("GET", "GET")
  {
  }

  /** No other gated action begins like the debugger's. */
  lemma DebuggerActions(action: string)
    ensures "agentCdp" <= action ==>
              && action != "executeBackgroundScript" && action != "agentRunBackgroundScript" && action != "createRecord"
              && action != "uploadAttachment" && action != "agentRestApi" && action != "takeScreenshot"
  {
    if "agentCdp" <= action {
      assert action[0] == 'a' && action[5] == 'C';
      assert "agentRunBackgroundScript"[5] == 'R' && "agentRestApi"[5] == 'R';
      assert "executeBackgroundScript"[0] == 'e' && "createRecord"[0] == 'c' && "uploadAttachment"[0] == 'u' && "takeScreenshot"[0] == 't';
    }
  }

  /** The origin an action targets is its instance's; its URL counts only without one. */
  lemma InstanceNamesTheTarget(p: Payload, url: Option<Url>)
    ensures p.instance.Some? ==> p.(url := url).TargetOrigin() == p.instance.value.url.origin
    ensures p.instance.None? && url.Some? ==> p.(url := url).TargetOrigin() == url.value.origin
    ensures p.instance.None? && url.None? ==> p.(url := url).TargetOrigin() == None
  {
  }
}
