/**
 * The configuration gate of the tool generator (tools_generator/agent.py):
 * a shared state record holding the organisation name, the API base URL and
 * the Swagger document, three setters, the validity check that binds a code
 * generator agent when it passes, and the write path that only works through
 * a bound agent.
 */
module ToolState {
  import opened Wrappers

  // ---------------------------------------------------------------------------
  // Whitespace and str.strip()
  // ---------------------------------------------------------------------------

  /** The ASCII whitespace characters: space, \t, \n, \r, \x0b and \x0c. */
  predicate IsSpace(c: char) {
    c == ' ' || c == '\t' || c == '\n' || c == '\r' || c == '\U{B}' || c == '\U{C}'
  }

  /** `s` holds at least one character that is not whitespace. */
  predicate HasNonWhitespace(s: string) {
    exists i :: 0 <= i < |s| && !IsSpace(s[i])
  }

  /** Python's `s.lstrip()`: drops the leading whitespace of `s`. */
  function TrimStart(s: string): (r: string)
    ensures |r| <= |s| && r == s[|s| - |r|..]
    ensures forall i :: 0 <= i < |s| - |r| ==> IsSpace(s[i])
    ensures r == [] || !IsSpace(r[0])
  {
    if |s| > 0 && IsSpace(s[0]) then TrimStart(s[1..]) else s
  }

  /** Python's `s.rstrip()`: drops the trailing whitespace of `s`. */
  function TrimEnd(s: string): (r: string)
    ensures |r| <= |s| && r == s[..|r|]
    ensures forall i :: |r| <= i < |s| ==> IsSpace(s[i])
    ensures r == [] || !IsSpace(r[|r| - 1])
  {
    if |s| > 0 && IsSpace(s[|s| - 1]) then TrimEnd(s[..|s| - 1]) else s
  }

  /**
   * Python's `s.strip()`: what is left of `s` once its leading and trailing
   * whitespace is gone; a non-empty result starts and ends with a
   * non-whitespace character.
   */
  function Strip(s: string): (r: string)
    ensures |r| <= |s|
    ensures r == [] || (!IsSpace(r[0]) && !IsSpace(r[|r| - 1]))
  {
    TrimEnd(TrimStart(s))
  }

  /**
   * `r` is the infix of `s` that starts at `k`, with only whitespace before
   * it and only whitespace after it.
   */
  predicate StrippedTo(s: string, r: string, k: int) {
    && 0 <= k && k + |r| <= |s|
    && r == s[k..k + |r|]
    && (forall i :: 0 <= i < k ==> IsSpace(s[i]))
    && (forall i :: k + |r| <= i < |s| ==> IsSpace(s[i]))
  }

  /**
   * `s.strip()` is `s` with its leading and trailing whitespace removed: an
   * infix of `s` surrounded by whitespace only, at the offset `k` returned.
   */
  lemma StripIsInfix(s: string) returns (k: int)
    ensures StrippedTo(s, Strip(s), k)
  {
    var t := TrimStart(s);
    var r := TrimEnd(t);
    k := |s| - |t|;
    assert t == s[k..];
    assert r == t[..|r|];
    assert r == s[k..k + |r|];
    forall i | k + |r| <= i < |s|
      ensures IsSpace(s[i])
    {
      assert s[i] == t[i - k];
    }
  }

  /** `s.strip() != ""` holds exactly when `s` has a non-whitespace character. */
  lemma StripNonEmptyIff(s: string)
    ensures Strip(s) != [] <==> HasNonWhitespace(s)
  {
    var t := TrimStart(s);
    var r := TrimEnd(t);
    var lo := |s| - |t|;
    if r != [] {
      assert t[0] == r[0] && s[lo] == t[0];
    }
  }

  /**
   * The generator expression of validate_state: every value, stripped, is
   * non-empty (`all(state_data[key].strip() != "" for key in keys)`).
   */
  function AllFilled(values: seq<string>): (r: bool)
    ensures r <==> forall i :: 0 <= i < |values| ==> HasNonWhitespace(values[i])
  {
    if values == [] then true
    else
      StripNonEmptyIff(values[0]);
      Strip(values[0]) != [] && AllFilled(values[1..])
  }

  /** The validity rule applied to the three configuration values. */
  function ConfigIsValid(orgName: string, baseUrl: string, swaggerJson: string): (r: bool)
    ensures r <==> HasNonWhitespace(orgName) && HasNonWhitespace(baseUrl) && HasNonWhitespace(swaggerJson)
  {
    var values := [orgName, baseUrl, swaggerJson];
    assert values[0] == orgName && values[1] == baseUrl && values[2] == swaggerJson;
    AllFilled(values)
  }

  /** A field that is empty or whitespace-only after strip() fails validation, whatever the others hold. */
  lemma BlankFieldInvalidates(orgName: string, baseUrl: string, swaggerJson: string)
    requires Strip(orgName) == [] || Strip(baseUrl) == [] || Strip(swaggerJson) == []
    ensures !ConfigIsValid(orgName, baseUrl, swaggerJson)
  {
    StripNonEmptyIff(orgName);
    StripNonEmptyIff(baseUrl);
    StripNonEmptyIff(swaggerJson);
  }

  // ---------------------------------------------------------------------------
  // The code generator handle and the shared state
  // ---------------------------------------------------------------------------

  /** Why write_code_to_tool failed: Python's KeyError, carrying the missing key. */
  datatype StateError = KeyError(key: string)

  /**
   * The generator agent bound by create_agent: the organisation name it was
   * built from and the code fragments appended to its tool file, in order.
   */
  class AgentGenerator {
    const orgName: string
    var toolCode: seq<string>

    constructor (orgName: string)
      ensures this.orgName == orgName && toolCode == []
    {
      this.orgName := orgName;
      toolCode := [];
    }

    /** Appends `code` after everything written to the tool file so far. */
    method WriteToTool(code: string)
      modifies this
      ensures toolCode == old(toolCode) + [code]
    {
      toolCode := toolCode + [code];
    }
  }

  /**
   * The module-level `state_data` dictionary. The three configuration keys
   * always exist; `agent == null` stands for the absent "agent" key.
   */
  class StateData {
    var orgName: string
    var baseUrl: string
    var swaggerJson: string
    var agent: AgentGenerator?

    /** The initial dictionary: three empty strings and no agent. */
    constructor ()
      ensures orgName == "" && baseUrl == "" && swaggerJson == "" && agent == null
    {
      orgName, baseUrl, swaggerJson := "", "", "";
      agent := null;
    }

    method SetOrgName(value: string)
      modifies this
      ensures orgName == value
      ensures baseUrl == old(baseUrl) && swaggerJson == old(swaggerJson) && agent == old(agent)
    {
      orgName := value;
    }

    method SetBaseUrl(value: string)
      modifies this
      ensures baseUrl == value
      ensures orgName == old(orgName) && swaggerJson == old(swaggerJson) && agent == old(agent)
    {
      baseUrl := value;
    }

    method SetSwaggerJson(value: string)
      modifies this
      ensures swaggerJson == value
      ensures orgName == old(orgName) && baseUrl == old(baseUrl) && agent == old(agent)
    {
      swaggerJson := value;
    }

    /**
     * Builds a new generator from the current organisation name, binds it
     * under "agent" (replacing any earlier one) and returns it.
     */
    method CreateAgent() returns (ag: AgentGenerator)
      modifies this
      ensures fresh(ag) && agent == ag
      ensures ag.orgName == orgName && ag.toolCode == []
      ensures orgName == old(orgName) && baseUrl == old(baseUrl) && swaggerJson == old(swaggerJson)
    {
      ag := new AgentGenerator(orgName);
      agent := ag;
    }

    /**
     * Checks the three fields; when they pass, binds a fresh agent as a side
     * effect. The configuration itself never changes.
     */
    method ValidateState() returns (isValid: bool)
      modifies this
      ensures isValid <==> HasNonWhitespace(orgName) && HasNonWhitespace(baseUrl) && HasNonWhitespace(swaggerJson)
      ensures orgName == old(orgName) && baseUrl == old(baseUrl) && swaggerJson == old(swaggerJson)
      ensures !isValid ==> agent == old(agent)
      ensures isValid ==> agent != null && fresh(agent) && agent.orgName == orgName && agent.toolCode == []
    {
      isValid := ConfigIsValid(orgName, baseUrl, swaggerJson);
      if isValid {
        var _ := CreateAgent();
      }
    }

    /**
     * Appends `code` to the bound agent's tool file; fails with KeyError("agent")
     * when no agent is bound, whatever `code` is.
     */
    method WriteCodeToTool(code: string) returns (r: Outcome<StateError>)
      modifies agent
      ensures agent == old(agent)
      ensures agent == null ==> r == Fail(KeyError("agent"))
      ensures agent != null ==> r == Pass && agent.toolCode == old(agent.toolCode) + [code]
    {
      if agent == null {
        r := Fail(KeyError("agent"));
      } else {
        agent.WriteToTool(code);
        r := Pass;
      }
    }
  }

  // ---------------------------------------------------------------------------
  // The workflow, from a freshly loaded module
  // ---------------------------------------------------------------------------

  /** Before any agent is bound, every write fails with the missing-key error. */
  method WriteBeforeAnyAgent(code: string) returns (r: Outcome<StateError>)
    ensures r == Fail(KeyError("agent"))
  {
    var state := new StateData();
    r := state.WriteCodeToTool(code);
  }

  /**
   * With the Swagger document left empty, validation fails, no agent is bound
   * and a write still fails, whatever organisation name and base URL were set.
   */
  method MissingSwaggerBlocks(orgName: string, baseUrl: string, code: string) returns (isValid: bool, r: Outcome<StateError>)
    ensures !isValid
    ensures r == Fail(KeyError("agent"))
  {
    var state := new StateData();
    state.SetOrgName(orgName);
    state.SetBaseUrl(baseUrl);
    isValid := state.ValidateState();
    r := state.WriteCodeToTool(code);
  }

  /**
   * Set all three fields, validate, then write two fragments. When the fields
   * are valid both writes succeed and the agent, named after the organisation,
   * holds exactly those fragments in order; otherwise both writes fail with
   * the missing-key error.
   */
  method ConfigureValidateWrite(orgName: string, baseUrl: string, swaggerJson: string, first: string, second: string)
    returns (isValid: bool, r1: Outcome<StateError>, r2: Outcome<StateError>, written: seq<string>, agentOrg: string)
    ensures isValid == ConfigIsValid(orgName, baseUrl, swaggerJson)
    ensures isValid ==> r1 == Pass && r2 == Pass && written == [first, second] && agentOrg == orgName
    ensures !isValid ==> r1 == Fail(KeyError("agent")) && r2 == Fail(KeyError("agent"))
  {
    var state := new StateData();
    state.SetOrgName(orgName);
    state.SetBaseUrl(baseUrl);
    state.SetSwaggerJson(swaggerJson);
    isValid := state.ValidateState();
    r1 := state.WriteCodeToTool(first);
    r2 := state.WriteCodeToTool(second);
    written, agentOrg := [], "";
    if state.agent != null {
      written, agentOrg := state.agent.toolCode, state.agent.orgName;
    }
  }
}
