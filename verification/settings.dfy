/**
 * The settings transitions of hooks/useSettings.ts, without the
 * persistence around them. The clock reading that names a new connection
 * and the built-in system prompt are parameters.
 */
module SettingsState {
  import opened Wrappers
  import opened Text
  import opened Seqs
  import opened Types

  /** `initialSettings`, whose prompt is the built-in default. */
  function InitialSettings(defaultPrompt: string): (s: Settings)
    ensures s.connections == [] && s.activeDatabaseId.None?
    ensures ProviderOf(s.aiProvider) == Some(Gemini) && s.selectedModel == DefaultModel(Gemini)
    ensures s.aiApiKey == "" && s.systemPrompt == defaultPrompt
  {
    Settings([], None, ProviderKey(Gemini), "", DefaultModel(Gemini), defaultPrompt)
  }

  /** `clearSettings`: back to the initial settings, whatever came before. */
  function ClearSettings(s: Settings, defaultPrompt: string): (r: Settings)
    ensures r.connections == [] && r.activeDatabaseId.None?
    ensures r == InitialSettings(defaultPrompt)
  {
    InitialSettings(defaultPrompt)
  }

  // ---------------------------------------------------------------------
  // Connection ids
  // ---------------------------------------------------------------------

  /** `n.toString()`: decimal digits without leading zeros. */
  function Decimal(n: nat): (s: string)
    ensures |s| > 0 && forall k | 0 <= k < |s| :: '0' <= s[k] <= '9'
    ensures |s| > 1 ==> s[0] != '0'
  {
    if n < 10 then [Digit(n)] else Decimal(n / 10) + [Digit(n % 10)]
  }

  /** Reading the digits back gives the number. */
  lemma {:induction false} DecimalValue(n: nat)
    ensures DigitsValue(Decimal(n)) == n
  {
    if n >= 10 {
      var s := Decimal(n);
      assert s[..|s| - 1] == Decimal(n / 10);
      DecimalValue(n / 10);
    }
  }

  /** Different clock readings give different ids. */
  lemma DecimalInjective(a: nat, b: nat)
    requires Decimal(a) == Decimal(b)
    ensures a == b
  {
    DecimalValue(a);
    DecimalValue(b);
  }

  // ---------------------------------------------------------------------
  // Connections
  // ---------------------------------------------------------------------

  /**
   * `addConnection(draft)` at clock reading `now`: the draft, named by the
   * reading, is appended and becomes the active connection.
   */
  function AddConnection(s: Settings, draft: Connection, now: nat): (r: Settings)
    ensures |r.connections| == |s.connections| + 1
    ensures r.connections[..|s.connections|] == s.connections
    ensures r.connections[|s.connections|] == draft.(id := Decimal(now))
    ensures r.activeDatabaseId == Some(Decimal(now))
    ensures r.(connections := s.connections, activeDatabaseId := s.activeDatabaseId) == s
  {
    var c := draft.(id := Decimal(now));
    s.(connections := s.connections + [c], activeDatabaseId := Some(c.id))
  }

  /** Ids taken from strictly earlier clock readings never clash with the new one. */
  lemma AddConnectionFreshId(s: Settings, draft: Connection, now: nat)
    requires forall k | 0 <= k < |s.connections| :: exists t: nat | t < now :: s.connections[k].id == Decimal(t)
    ensures forall k | 0 <= k < |s.connections| :: s.connections[k].id != AddConnection(s, draft, now).connections[|s.connections|].id
  {
    forall k | 0 <= k < |s.connections|
      ensures s.connections[k].id != Decimal(now)
    {
      var t: nat :| t < now && s.connections[k].id == Decimal(t);
      if Decimal(t) == Decimal(now) {
        DecimalInjective(t, now);
      }
    }
  }

  /** The connections that do not carry `id`: `c.id !== id`. */
  predicate OtherId(id: string, c: Connection) {
    c.id != id
  }

  /** The connections that carry `id`, the ones removal drops. */
  predicate SameId(id: string, c: Connection) {
    c.id == id
  }

  /**
   * `removeConnection(id)`: every connection with that id goes, the others
   * stay in order. If the removed id was active, the first remaining
   * connection becomes active (none if there is none, or if its id is empty).
   */
  function RemoveConnection(s: Settings, id: string): (r: Settings)
    ensures forall c | c in r.connections :: c.id != id && c in s.connections
    ensures forall c | c in s.connections && c.id != id :: c in r.connections
    ensures IsSubsequence(r.connections, s.connections)
    ensures |r.connections| + |Filter(s.connections, c => SameId(id, c))| == |s.connections|
    ensures s.activeDatabaseId != Some(id) ==> r.activeDatabaseId == s.activeDatabaseId
    ensures s.activeDatabaseId == Some(id) ==>
      (r.activeDatabaseId.Some? <==> |r.connections| > 0 && r.connections[0].id != "")
    ensures s.activeDatabaseId == Some(id) && r.activeDatabaseId.Some? ==>
      r.activeDatabaseId.value == r.connections[0].id
    ensures r.(connections := s.connections, activeDatabaseId := s.activeDatabaseId) == s
  {
    FilterPartition(s.connections, c => OtherId(id, c), c => SameId(id, c));
    var kept := Filter(s.connections, c => OtherId(id, c));
    var active :=
      if s.activeDatabaseId == Some(id) then
        (if |kept| > 0 && kept[0].id != "" then Some(kept[0].id) else None)
      else s.activeDatabaseId;
    s.(connections := kept, activeDatabaseId := active)
  }

  /** The active id names an existing connection, or there is none. */
  predicate ActiveValid(s: Settings) {
    s.activeDatabaseId.Some? ==> exists c | c in s.connections :: c.id == s.activeDatabaseId.value
  }

  /** Removing a connection never leaves the active id dangling. */
  lemma RemoveKeepsActiveValid(s: Settings, id: string)
    requires ActiveValid(s)
    ensures ActiveValid(RemoveConnection(s, id))
  {
    var r := RemoveConnection(s, id);
    if s.activeDatabaseId == Some(id) {
      if r.activeDatabaseId.Some? {
        assert r.connections[0] in r.connections;
      }
    } else if s.activeDatabaseId.Some? {
      var c :| c in s.connections && c.id == s.activeDatabaseId.value;
      assert c in r.connections;
    }
  }

  /** Removing an id that no connection has changes nothing but may clear a dangling active id. */
  lemma RemoveAbsentKeepsConnections(s: Settings, id: string)
    requires forall c | c in s.connections :: c.id != id
    ensures RemoveConnection(s, id).connections == s.connections
  {
    FilterAll(s.connections, c => OtherId(id, c));
  }

  /** `setActiveDatabaseId(id)`: only the active id changes. */
  function SetActiveDatabaseId(s: Settings, id: Option<string>): (r: Settings)
    ensures r.activeDatabaseId == id
    ensures r.(activeDatabaseId := s.activeDatabaseId) == s
  {
    s.(activeDatabaseId := id)
  }

  // ---------------------------------------------------------------------
  // AI settings
  // ---------------------------------------------------------------------

  /** The string-valued settings the AI settings form writes. */
  datatype AiSetting = AiProviderSetting | AiApiKeySetting | SelectedModelSetting | SystemPromptSetting

  function Read(s: Settings, key: AiSetting): string {
    match key
    case AiProviderSetting => s.aiProvider
    case AiApiKeySetting => s.aiApiKey
    case SelectedModelSetting => s.selectedModel
    case SystemPromptSetting => s.systemPrompt
  }

  /**
   * `updateAiSetting(key, value)`: the setting takes the value; choosing a
   * known provider also selects that provider's first model.
   */
  function UpdateAiSetting(s: Settings, key: AiSetting, value: string): (r: Settings)
    ensures Read(r, key) == value
    ensures r.connections == s.connections && r.activeDatabaseId == s.activeDatabaseId
    ensures forall other | other != key && other != SelectedModelSetting :: Read(r, other) == Read(s, other)
    ensures key != AiProviderSetting && key != SelectedModelSetting ==> r.selectedModel == s.selectedModel
    ensures key == AiProviderSetting && ProviderOf(value).Some? ==>
      r.selectedModel == DefaultModel(ProviderOf(value).value) && r.selectedModel in Models(ProviderOf(value).value)
    ensures key == AiProviderSetting && ProviderOf(value).None? ==> r.selectedModel == s.selectedModel
  {
    match key
    case AiProviderSetting =>
      var t := s.(aiProvider := value);
      (match ProviderOf(value)
       case Some(p) => t.(selectedModel := DefaultModel(p))
       case None => t)
    case AiApiKeySetting => s.(aiApiKey := value)
    case SelectedModelSetting => s.(selectedModel := value)
    case SystemPromptSetting => s.(systemPrompt := value)
  }

  /** After switching to a known provider the selected model is one of its models. */
  lemma ProviderSwitchSelectsOwnModel(s: Settings, p: Provider)
    ensures UpdateAiSetting(s, AiProviderSetting, ProviderKey(p)).selectedModel in Models(p)
  {
    ProviderKeyRoundTrip(p);
  }
}
