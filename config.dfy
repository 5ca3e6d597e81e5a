/** `OmniAuth::Configuration`: the process-wide settings object reached
    through `OmniAuth.config` and updated through `OmniAuth.configure`,
    together with the mock authentication table and `add_mock`. */
module Config {
  import opened Values
  import Utils

  /** The `on_failure` handler: the built-in failure endpoint (a Rack
      application, whose response is outside this model), or a block
      installed with `config.on_failure { ... }`, run afresh on every call. */
  datatype FailureHandler = FailureEndpoint | Block(body: () -> string)

  /** One entry of the configuration as a hash. */
  datatype Setting =
    | Text(text: string)
    | Flag(flag: bool)
    | Handler(handler: FailureHandler)
    | Mocks(mocks: map<string, AuthHash>)
    | Names(names: map<string, string>)

  const DefaultPathPrefix: string := "/auth"

  /** The reserved `mock_auth` key of the template every mock starts from. */
  const DefaultMockKey: string := "default"

  const SettingNames: set<string> :=
    {"path_prefix", "on_failure", "test_mode", "mock_auth", "camelizations"}

  /** A configuration hash: exactly the known settings, each of its kind. */
  ghost predicate WellTyped(h: map<string, Setting>) {
    && h.Keys == SettingNames
    && h["path_prefix"].Text?
    && h["on_failure"].Handler?
    && h["test_mode"].Flag?
    && h["mock_auth"].Mocks?
    && h["camelizations"].Names?
  }

  /** `Configuration.defaults`: a genuine hash holding every setting, with
      `path_prefix` `/auth`, the built-in failure endpoint, test mode off and
      empty mock and camelization tables. */
  function Defaults(): (d: map<string, Setting>)
    ensures WellTyped(d)
    ensures d["path_prefix"] == Text(DefaultPathPrefix)
  {
    map[
      "path_prefix" := Text(DefaultPathPrefix),
      "on_failure" := Handler(FailureEndpoint),
      "test_mode" := Flag(false),
      "mock_auth" := Mocks(map[]),
      "camelizations" := Names(map[])
    ]
  }

  // ---------------------------------------------------------------------
  // configure: the assignments a configuration block makes, in order
  // ---------------------------------------------------------------------

  /** One assignment made inside an `OmniAuth.configure` block. */
  datatype Assignment =
    | SetPathPrefix(pathPrefix: string)
    | SetOnFailure(handler: FailureHandler)
    | SetTestMode(testMode: bool)
    | SetMockAuth(mockAuth: map<string, AuthHash>)
    | SetCamelizations(camelizations: map<string, string>)

  /** The setting an assignment writes. */
  function NameOf(a: Assignment): (k: string)
    ensures k in SettingNames
  {
    match a
    case SetPathPrefix(_) => "path_prefix"
    case SetOnFailure(_) => "on_failure"
    case SetTestMode(_) => "test_mode"
    case SetMockAuth(_) => "mock_auth"
    case SetCamelizations(_) => "camelizations"
  }

  /** The value an assignment writes. */
  function ValueOf(a: Assignment): Setting {
    match a
    case SetPathPrefix(p) => Text(p)
    case SetOnFailure(h) => Handler(h)
    case SetTestMode(b) => Flag(b)
    case SetMockAuth(m) => Mocks(m)
    case SetCamelizations(t) => Names(t)
  }

  /** One assignment on the configuration hash; it keeps the hash well typed. */
  function Assign(h: map<string, Setting>, a: Assignment): (r: map<string, Setting>)
    ensures WellTyped(h) ==> WellTyped(r)
  {
    h[NameOf(a) := ValueOf(a)]
  }

  /** A whole configuration block: its assignments, first to last. */
  function AssignAll(h: map<string, Setting>, assignments: seq<Assignment>): (r: map<string, Setting>)
    ensures WellTyped(h) ==> WellTyped(r)
  {
    if assignments == [] then h
    else Assign(AssignAll(h, assignments[..|assignments| - 1]), assignments[|assignments| - 1])
  }

  /** The value the last assignment to setting `name` writes, if any. */
  function LastAssigned(assignments: seq<Assignment>, name: string): Option<Setting> {
    if assignments == [] then None
    else
      var a := assignments[|assignments| - 1];
      if NameOf(a) == name then Some(ValueOf(a))
      else LastAssigned(assignments[..|assignments| - 1], name)
  }

  /** After a configuration block every setting holds the value of its last
      assignment, and a setting the block does not assign keeps its value. */
  lemma {:induction false} AssignAllLastWins(h: map<string, Setting>, assignments: seq<Assignment>, name: string)
    requires name in h
    ensures name in AssignAll(h, assignments)
    ensures AssignAll(h, assignments)[name] ==
      match LastAssigned(assignments, name)
      case Some(s) => s
      case None => h[name]
  {
    if assignments != [] {
      AssignAllLastWins(h, assignments[..|assignments| - 1], name);
    }
  }

  // ---------------------------------------------------------------------
  // add_mock
  // ---------------------------------------------------------------------

  /** The template a new mock starts from: `mock_auth[:default]`, or an
      empty record when there is none. */
  function DefaultTemplate(mocks: map<string, AuthHash>): (t: AuthHash)
    ensures DefaultMockKey in mocks ==> t == mocks[DefaultMockKey]
    ensures DefaultMockKey !in mocks ==> t == map[]
  {
    if DefaultMockKey in mocks then mocks[DefaultMockKey] else map[]
  }

  /** Without a `default` entry the mock is the override itself, stamped
      with the provider's name. */
  lemma MockWithoutDefault(mocks: map<string, AuthHash>, provider: string, data: AuthHash)
    requires DefaultMockKey !in mocks
    ensures MockFor(mocks, provider, data) == data["provider" := Str(provider)]
  {
    var merged := Utils.DeepMerge(map[], data);
    assert merged == data;
  }

  /** The record `add_mock(provider, data)` stores: `data` deep-merged over
      the template, then `provider` stamped with the provider's name. */
  function MockFor(mocks: map<string, AuthHash>, provider: string, data: AuthHash): (r: AuthHash)
    ensures r.Keys == DefaultTemplate(mocks).Keys + data.Keys + {"provider"}
    ensures r["provider"] == Str(provider)
  {
    Utils.DeepMerge(DefaultTemplate(mocks), data)["provider" := Str(provider)]
  }

  /** The mock table after `add_mock(provider, data)`: the new record sits
      at `provider`, every other entry is as it was, and the table grows by
      one entry exactly when `provider` was not there before. */
  function AddMockTo(mocks: map<string, AuthHash>, provider: string, data: AuthHash): (r: map<string, AuthHash>)
    ensures r.Keys == mocks.Keys + {provider}
    ensures r[provider] == MockFor(mocks, provider, data)
    ensures forall k :: k in mocks && k != provider ==> r[k] == mocks[k]
  {
    mocks[provider := MockFor(mocks, provider, data)]
  }

  /** `add_mock` grows the mock table by one entry exactly when the provider
      is new, and keeps its size when it replaces an existing mock. */
  lemma AddMockToSize(mocks: map<string, AuthHash>, provider: string, data: AuthHash)
    ensures |AddMockTo(mocks, provider, data)| == if provider in mocks then |mocks| else |mocks| + 1
  {
    var r := AddMockTo(mocks, provider, data);
    if provider in mocks {
      assert r.Keys == mocks.Keys;
    } else {
      assert r.Keys == mocks.Keys + {provider};
    }
  }

  /** Below the stamped `provider` key, every leaf of the override is in the
      mock: override values beat the template at every depth. */
  lemma MockKeepsOverride(mocks: map<string, AuthHash>, provider: string, data: AuthHash, path: seq<string>, v: Value)
    requires Dig(Record(data), path) == Some(v) && !v.Record?
    requires path[0] != "provider"
    ensures Dig(Record(MockFor(mocks, provider, data)), path) == Some(v)
  {
    var merged := Utils.DeepMerge(DefaultTemplate(mocks), data);
    Utils.DeepMergeKeepsOtherLeaves(DefaultTemplate(mocks), data, path, v);
    assert path == [path[0]] + path[1..];
    DigCons(merged, path[0], path[1..]);
    DigCons(MockFor(mocks, provider, data), path[0], path[1..]);
  }

  /** Below the stamped `provider` key, every value of the template that the
      override does not write over is inherited by the mock. */
  lemma MockInheritsTemplate(mocks: map<string, AuthHash>, provider: string, data: AuthHash, path: seq<string>, v: Value)
    requires Dig(Record(DefaultTemplate(mocks)), path) == Some(v) && Utils.Untouched(data, path)
    requires path[0] != "provider"
    ensures Dig(Record(MockFor(mocks, provider, data)), path) == Some(v)
  {
    var merged := Utils.DeepMerge(DefaultTemplate(mocks), data);
    Utils.DeepMergeKeepsBase(DefaultTemplate(mocks), data, path, v);
    assert path == [path[0]] + path[1..];
    DigCons(merged, path[0], path[1..]);
    DigCons(MockFor(mocks, provider, data), path[0], path[1..]);
  }

  // ---------------------------------------------------------------------
  // The configuration object
  // ---------------------------------------------------------------------

  class Configuration {
    var pathPrefix: string
    var onFailure: FailureHandler
    var testMode: bool
    var mockAuth: map<string, AuthHash>
    var camelizations: map<string, string>

    /** The configuration read back as a hash of its settings. */
    function AsHash(): (h: map<string, Setting>)
      reads this
      ensures WellTyped(h)
    {
      map[
        "path_prefix" := Text(pathPrefix),
        "on_failure" := Handler(onFailure),
        "test_mode" := Flag(testMode),
        "mock_auth" := Mocks(mockAuth),
        "camelizations" := Names(camelizations)
      ]
    }

    /** The singleton is built from `Configuration.defaults`, one setting
        per entry. */
    constructor ()
      ensures AsHash() == Defaults()
      ensures pathPrefix == DefaultPathPrefix
    {
      pathPrefix := DefaultPathPrefix;
      onFailure := FailureEndpoint;
      testMode := false;
      mockAuth := map[];
      camelizations := map[];
    }

    /** `OmniAuth.configure { |config| ... }`: the block's assignments are
        made on the live object, in order. */
    method Configure(assignments: seq<Assignment>)
      modifies this
      ensures AsHash() == AssignAll(old(AsHash()), assignments)
    {
      var i := 0;
      while i < |assignments|
        invariant 0 <= i <= |assignments|
        invariant AsHash() == AssignAll(old(AsHash()), assignments[..i])
      {
        Apply(assignments[i]);
        assert assignments[..i + 1][..i] == assignments[..i];
        i := i + 1;
      }
      assert assignments[..|assignments|] == assignments;
    }

    /** One assignment `config.<setting> = value` on the live object. */
    method Apply(a: Assignment)
      modifies this
      ensures AsHash() == Assign(old(AsHash()), a)
    {
      match a {
        case SetPathPrefix(p) => pathPrefix := p;
        case SetOnFailure(h) => onFailure := h;
        case SetTestMode(b) => testMode := b;
        case SetMockAuth(m) => mockAuth := m;
        case SetCamelizations(t) => camelizations := t;
      }
    }

    /** `config.on_failure { ... }`: installs the block as the handler,
        replacing the previous one. */
    method OnFailure(block: () -> string)
      modifies this
      ensures AsHash() == Assign(old(AsHash()), SetOnFailure(Block(block)))
      ensures onFailure == Block(block)
      ensures CallOnFailure() == Some(block())
      ensures pathPrefix == old(pathPrefix) && testMode == old(testMode)
      ensures mockAuth == old(mockAuth) && camelizations == old(camelizations)
    {
      Apply(SetOnFailure(Block(block)));
    }

    /** `config.on_failure.call`: runs an installed block and yields its
        result; the built-in endpoint needs a Rack request and yields
        nothing here. */
    function CallOnFailure(): (r: Option<string>)
      reads this
      ensures r.Some? <==> onFailure.Block?
    {
      match onFailure
      case Block(body) => Some(body())
      case FailureEndpoint => None
    }

    /** `config.mock_auth[key] = hash`: direct assignment into the table. */
    method SetMock(key: string, hash: AuthHash)
      modifies this
      ensures mockAuth == old(mockAuth)[key := hash]
      ensures pathPrefix == old(pathPrefix) && onFailure == old(onFailure) && testMode == old(testMode)
      ensures camelizations == old(camelizations)
    {
      mockAuth := mockAuth[key := hash];
    }

    /** `config.add_mock(provider, data)`. */
    method AddMock(provider: string, data: AuthHash)
      modifies this
      ensures mockAuth == AddMockTo(old(mockAuth), provider, data)
      ensures |mockAuth| == if provider in old(mockAuth) then |old(mockAuth)| else |old(mockAuth)| + 1
      ensures mockAuth[provider]["provider"] == Str(provider)
      ensures pathPrefix == old(pathPrefix) && onFailure == old(onFailure) && testMode == old(testMode)
      ensures camelizations == old(camelizations)
    {
      AddMockToSize(mockAuth, provider, data);
      var template := if DefaultMockKey in mockAuth then mockAuth[DefaultMockKey] else map[];
      var mock := Utils.DeepMerge(template, data);
      mock := mock["provider" := Str(provider)];
      mockAuth := mockAuth[provider := mock];
    }

    /** `config.add_camelization(name, camelized)`: inserts or overwrites
        the table entry, so that camelizing `name` now yields `camelized`. */
    method AddCamelization(name: string, camelized: string)
      modifies this
      ensures camelizations == old(camelizations)[Utils.Downcased(name) := camelized]
      ensures Utils.Camelize(camelizations, name) == camelized
      ensures pathPrefix == old(pathPrefix) && onFailure == old(onFailure) && testMode == old(testMode)
      ensures mockAuth == old(mockAuth)
    {
      camelizations := camelizations[Utils.Downcased(name) := camelized];
    }
  }

  /** After `add_camelization(name, camelized)` the stored form wins for
      every spelling of `name` that lower-cases to the same key, whatever
      the table held before. */
  lemma CamelizationTakesPrecedence(table: map<string, string>, name: string, camelized: string, word: string)
    requires Utils.Downcased(word) == Utils.Downcased(name)
    ensures Utils.Camelize(table[Utils.Downcased(name) := camelized], word) == camelized
  {
  }

  // ---------------------------------------------------------------------
  // Clients: what a caller can conclude from the contracts alone
  // ---------------------------------------------------------------------

  /** Setting the path prefix inside a configuration block. */
  method ConfigurePathPrefix(config: Configuration)
    modifies config
    ensures config.pathPrefix == "/awesome"
  {
    config.Configure([SetPathPrefix("/awesome")]);
    AssignAllLastWins(old(config.AsHash()), [SetPathPrefix("/awesome")], "path_prefix");
  }

  /** Installing a block as the failure handler inside a configuration
      block, then calling it. */
  method ConfigureOnFailure(config: Configuration)
    modifies config
    ensures config.CallOnFailure() == Some("yoyo")
  {
    var yoyo := () => "yoyo";
    config.Configure([SetOnFailure(Block(yoyo))]);
    AssignAllLastWins(old(config.AsHash()), [SetOnFailure(Block(yoyo))], "on_failure");
  }

  /** Adding a mock under a new key adds one entry. */
  method AddMockAddsEntry(config: Configuration)
    requires "foo" !in config.mockAuth
    modifies config
    ensures |config.mockAuth| == |old(config.mockAuth)| + 1
  {
    config.AddMock("foo", map["uid" := Str("johndoe")]);
  }

  /** A new mock inherits nested values from the default template. */
  method AddMockMergesDefault(config: Configuration)
    modifies config
    ensures "foo" in config.mockAuth
    ensures Dig(Record(config.mockAuth["foo"]), ["info", "name"]) == Some(Str("John Doe"))
  {
    var template := map["info" := Record(map["name" := Str("John Doe")])];
    var data := map["uid" := Str("johndoe")];
    config.SetMock(DefaultMockKey, template);
    assert DefaultTemplate(config.mockAuth) == template;
    assert Dig(Record(template), ["info", "name"]) == Some(Str("John Doe")) by {
      DigCons(template, "info", ["name"]);
      DigCons(template["info"].fields, "name", []);
    }
    assert Utils.Untouched(data, ["info", "name"]);
    MockInheritsTemplate(config.mockAuth, "foo", data, ["info", "name"], Str("John Doe"));
    config.AddMock("foo", data);
  }

  /** Override values beat the default template at the top level. */
  method AddMockOverridesDefault(config: Configuration)
    modifies config
    ensures "foo" in config.mockAuth && "uid" in config.mockAuth["foo"]
      && config.mockAuth["foo"]["uid"] == Str("johndoe")
  {
    config.SetMock(DefaultMockKey, map["uid" := Str("smithy")]);
    config.AddMock("foo", map["uid" := Str("johndoe")]);
  }

  /** The provider's name is stamped into the mock. */
  method AddMockStampsProvider(config: Configuration)
    modifies config
    ensures "foo" in config.mockAuth && "provider" in config.mockAuth["foo"]
      && config.mockAuth["foo"]["provider"] == Str("foo")
  {
    config.AddMock("foo", map["uid" := Str("johndoe")]);
  }

  /** A camelization added to the table takes precedence. */
  method AddCamelizationOAuth(config: Configuration)
    modifies config
    ensures Utils.Camelize(config.camelizations, "oauth") == "OAuth"
  {
    config.AddCamelization("oauth", "OAuth");
  }
}
