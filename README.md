# OmniAuth core: strategy registry, configuration, mock authentication, naming utilities

A Dafny model of the in-memory core of OmniAuth, the Ruby framework for
pluggable authentication strategies. The model has four parts.

- **Strategy registry** (`strategies.dfy`, module `Strategies`).
  `OmniAuth.strategies` is an append-only list in insertion order. Every
  class that includes `OmniAuth::Strategy` is appended to it. Here the
  registry is a `Registry` object. Declaring a strategy is an explicit
  call to `Register`.
- **Configuration** (`config.dfy`, module `Config`). `OmniAuth.config` is
  one mutable `Configuration` object holding `path_prefix`, `on_failure`,
  `test_mode`, the `mock_auth` table and the camelization table. It is
  built from `Configuration.defaults`, which is a plain hash. An
  `OmniAuth.configure` block is modelled as the sequence of assignments it
  makes, applied in order. `AsHash` reads the object back as a hash, so
  the constructor and `Configure` can be stated against `Defaults` and
  `AssignAll`.
- **Mock authentication** (`config.dfy`). `add_mock(provider, data)` deep-merges
  `data` over `mock_auth[:default]`, or over an empty record when there is
  none. It then stamps `provider` with the provider's name and stores the
  result at `mock_auth[provider]`.
- **Utilities** (`utils.dfy`, module `Utils`; values in `values.dfy`, module
  `Values`). `deep_merge` works over a recursive tagged union of values: a
  record, a string, an integer or a list. `camelize` first looks up the
  lower-cased token in the camelization table. Otherwise it splits on `_`,
  upper-cases the first character of each segment and concatenates. A
  second, one-pass definition (`CamelizeScan`) is proved equal to the
  split-based one, and the properties are proved through it.

The implementation files of `OmniAuth`, `OmniAuth::Configuration` and
`OmniAuth::Utils` are not part of this model. The behaviour modelled is the
behaviour that spec/omniauth_spec.rb pins down. Where the tests leave a
choice open, the model follows the components' documented contracts. Each
such choice is listed under "Left out".

Hash keys are strings throughout. A Ruby symbol such as `:foo` is written
as its string form `"foo"`. `Dig(v, path)` follows a path of keys through
nested records, as `h[k1][k2]` does.

## Model

| member | source | states |
|---|---|---|
| `Values.Dig` | spec/omniauth_spec.rb:67 | an empty path yields the value itself; a lookup succeeds only through a record holding the first key |
| `Values.DigAppend` | spec/omniauth_spec.rb:67 | looking up `p + q` is looking up `p` and then `q` from there, as `h[:foo][:info][:name]` chains lookups |
| `Strategies.Registry.constructor` | spec/omniauth_spec.rb:4-5 | the registry starts empty |
| `Strategies.Registry.Register` | spec/omniauth_spec.rb:6-9 | declaring a strategy appends exactly it: the size grows by one and it becomes the last entry; there is no de-duplication |
| `Strategies.DeclareExampleStrategy` | spec/omniauth_spec.rb:5-9 | after declaring `ExampleStrategy` the size has grown by 1 and `last` is `ExampleStrategy` |
| `Strategies.Registry.Size` | spec/omniauth_spec.rb:8 | `strategies.size`: zero exactly when there is no last strategy |
| `Strategies.Registry.Last` | spec/omniauth_spec.rb:9 | `strategies.last`: present exactly when the registry is non-empty, and then it is the entry the registry ends with |
| `Config.Defaults` | spec/omniauth_spec.rb:14-18 | the defaults are a hash holding exactly the known settings, each of its kind, with `path_prefix` `/auth` |
| `Config.Configuration.AsHash` | spec/omniauth_spec.rb:14-18 | the live configuration read back as a hash is always well typed |
| `Config.Configuration.constructor` | spec/omniauth_spec.rb:13-18 | the configuration object is built from the defaults: read back as a hash it equals `Defaults()` |
| `Config.Assign` | spec/omniauth_spec.rb:38-43 | one assignment inside a configure block keeps the configuration hash well typed |
| `Config.AssignAll` | spec/omniauth_spec.rb:20-24 | a whole configure block keeps the configuration hash well typed |
| `Config.AssignAllLastWins` | spec/omniauth_spec.rb:38-43 | after a configure block every setting holds the value of its last assignment; a setting the block does not assign keeps its old value |
| `Config.Configuration.Configure` | spec/omniauth_spec.rb:20-24 | `configure` applies the block's assignments to the live object, in order: the new state is `AssignAll` of the old state |
| `Config.Configuration.Apply` | spec/omniauth_spec.rb:39-41 | one `config.<setting> = value` changes exactly that setting |
| `Config.ConfigurePathPrefix` | spec/omniauth_spec.rb:38-43 | after `configure` sets `path_prefix` to `/awesome`, reading it gives `/awesome` |
| `Config.Configuration.OnFailure` | spec/omniauth_spec.rb:47-51 | `on_failure { ... }` is the `on_failure` assignment of a configure block: it installs the block as the handler, replacing the previous one, calling the handler then runs the block, and nothing else changes |
| `Config.Configuration.CallOnFailure` | spec/omniauth_spec.rb:53 | invoking `on_failure` yields a result exactly when a block is installed |
| `Config.ConfigureOnFailure` | spec/omniauth_spec.rb:46-53 | after a configure block installs a block returning `yoyo`, calling `on_failure` returns `yoyo` |
| `Config.Configuration.SetMock` | spec/omniauth_spec.rb:65 | `mock_auth[key] = hash` stores the hash at the key and changes nothing else |
| `Config.DefaultTemplate` | spec/omniauth_spec.rb:64-66 | the template a mock starts from is `mock_auth[:default]` when present and an empty record otherwise |
| `Config.MockWithoutDefault` | spec/omniauth_spec.rb:59-61 | with no `default` entry, the stored mock is the override itself with `provider` stamped in |
| `Config.MockFor` | spec/omniauth_spec.rb:64-79 | the stored mock has the keys of the template, of the override and `provider`, and `provider` holds the provider's name as a string |
| `Config.AddMockTo` | spec/omniauth_spec.rb:59-61 | the mock table gains `provider`, the entry stored there is the merged and stamped mock, and every other entry is kept |
| `Config.AddMockToSize` | spec/omniauth_spec.rb:59-62 | the mock table grows by exactly one entry when `provider` is new and keeps its size when an existing mock is replaced |
| `Config.Configuration.AddMock` | spec/omniauth_spec.rb:56-80 | `add_mock` replaces the mock table by `AddMockTo` of the old one, so the size and the stamped provider follow; other settings are unchanged |
| `Config.MockKeepsOverride` | spec/omniauth_spec.rb:70-74 | every leaf of the override, at any depth below a key other than `provider`, is found at the same path in the mock: the override beats the default |
| `Config.MockInheritsTemplate` | spec/omniauth_spec.rb:64-68 | every value of the default template that the override does not write over is found at the same path in the mock |
| `Config.AddMockAddsEntry` | spec/omniauth_spec.rb:59-62 | `add_mock :foo` on a table without `foo` grows it by 1 |
| `Config.AddMockMergesDefault` | spec/omniauth_spec.rb:64-68 | with the default `{info: {name: "John Doe"}}`, `mock_auth[:foo][:info][:name]` is `John Doe` |
| `Config.AddMockOverridesDefault` | spec/omniauth_spec.rb:70-74 | with the default `{uid: "smithy"}` and the override `{uid: "johndoe"}`, `mock_auth[:foo][:uid]` is `johndoe` |
| `Config.AddMockStampsProvider` | spec/omniauth_spec.rb:76-79 | `mock_auth[:foo][:provider]` is the string `foo` |
| `Config.Configuration.AddCamelization` | spec/omniauth_spec.rb:104-106 | `add_camelization` inserts or overwrites the entry for the lower-cased name, and camelizing the name then yields the stored form; nothing else changes |
| `Config.CamelizationTakesPrecedence` | spec/omniauth_spec.rb:104-107 | whatever the table held before, after adding an entry for a name every spelling of that name camelizes to the stored form |
| `Config.AddCamelizationOAuth` | spec/omniauth_spec.rb:104-107 | after `add_camelization('oauth', 'OAuth')`, `camelize(:oauth)` is `OAuth` |
| `Utils.DeepMerge` | spec/omniauth_spec.rb:86-91 | the merged keys are the union of both inputs' keys; keys only in the base keep their value; the override's value wins unless both sides hold records, in which case the result is a record whose keys are the union of the two nested records' keys |
| `Utils.DeepMergeKeepsOtherLeaves` | spec/omniauth_spec.rb:86-91 | every leaf of the override is found at the same path in the merge, at every depth |
| `Utils.DeepMergeKeepsBase` | spec/omniauth_spec.rb:86-91 | no data loss: a value of the base is found at the same path in the merge unless the override writes at that path or puts a leaf on the way to it |
| `Utils.DeepMergeLeafOrigin` | spec/omniauth_spec.rb:86-91 | nothing is invented: every leaf of the merge is the override's or the base's leaf at the same path |
| `Utils.DeepMergeIdempotent` | spec/omniauth_spec.rb:86-91 | merging a hash with itself gives it back |
| `Utils.DeepMergeCombinesNested` | spec/omniauth_spec.rb:87-90 | `{'abc'=>{'def'=>123}}` merged with `{'abc'=>{'foo'=>'bar'}}` is `{'abc'=>{'def'=>123,'foo'=>'bar'}}` |
| `Utils.Split` | spec/omniauth_spec.rb:94-102 | splitting on `_` yields at least one segment and no segment contains `_` |
| `Utils.SplitJoin` | spec/omniauth_spec.rb:94-102 | joining the segments with `_` gives the token back, so splitting loses nothing |
| `Utils.CamelizeWords` | spec/omniauth_spec.rb:95-101 | the default camelization (split on `_`, capitalize each segment, concatenate) equals the one-pass rewrite `CamelizeScan`, which drops every `_` and upper-cases the character starting each segment |
| `Utils.CamelizeWordsShape` | spec/omniauth_spec.rb:94-102 | the default camelization leaves no `_`, never starts with a lower-case letter and is no longer than the token |
| `Utils.CamelizeWordsSegment` | spec/omniauth_spec.rb:97-100 | an `_` ends a segment: the segment before it is capitalized and the rest of the token is camelized on its own |
| `Utils.CamelizeWordsUnderscoreFree` | spec/omniauth_spec.rb:98-99 | a token without `_` only has its first character upper-cased; the rest is untouched |
| `Utils.CamelizeWordsJoin` | spec/omniauth_spec.rb:94-102 | camelizing words joined with `_` gives the concatenation of the capitalized words |
| `Utils.CamelizeWordsJoinThree` | spec/omniauth_spec.rb:100 | a token made of three `_`-separated words camelizes to the three capitalized words in order, as an instance of `CamelizeWordsJoin` |
| `Utils.CamelizeWordsKeepsCamelCase` | spec/omniauth_spec.rb:98 | a token already in camel case (no `_`, not starting lower-case) comes back unchanged |
| `Utils.CamelizeWordsIdempotent` | spec/omniauth_spec.rb:94-102 | camelizing twice is camelizing once |
| `Utils.Camelize` | spec/omniauth_spec.rb:94-107 | a token whose lower-cased form is in the table yields the stored form verbatim; any other token yields `CamelizeScan` of the token (every `_` dropped, the character starting each segment upper-cased), so no `_` is left, it does not start lower-case and is no longer than the token |
| `Utils.CamelizeSomeWord` | spec/omniauth_spec.rb:97 | `some_word` camelizes to `SomeWord` |
| `Utils.CamelizeAnotherWord` | spec/omniauth_spec.rb:98 | `AnotherWord` camelizes to `AnotherWord` |
| `Utils.CamelizeOne` | spec/omniauth_spec.rb:99 | `one` camelizes to `One` |
| `Utils.CamelizeThreeWordsNow` | spec/omniauth_spec.rb:100 | `three_words_now` camelizes to `ThreeWordsNow` |

## Left out

- Declaring a strategy with `include OmniAuth::Strategy` registers it through Ruby's module-inclusion hook. That metaprogramming is not modelled; `Register` is called explicitly.
- The registry and the configuration are process-wide globals in Ruby. Here they are objects passed to their clients.
- Config.Configuration.CallOnFailure: yields `None` for the built-in failure endpoint, because that endpoint is a Rack application that needs a request and answers with a Rack response. Only a block installed with `on_failure { ... }` is run.
- `on_failure` handlers take no failure context here. The block is a total function of no arguments returning a string. In Ruby a block may return any object (the built-in endpoint returns a Rack response), and it may raise; neither is modelled.
- Config.Defaults: holds only the five settings of this core (`path_prefix`, `on_failure`, `test_mode`, `mock_auth`, `camelizations`). Other settings of the framework (logger, form CSS, request-phase hooks, allowed request methods) are outside this model.
- The default `mock_auth` table starts empty. The contents of the framework's own default mock template are not known to this model.
- Symbols and strings are not distinguished. Every key is its string form, and `add_mock` stamps `provider` with that form.
- `AuthHash` is a plain map, not a class with method-style access.
- Case mapping is ASCII only: `Upcase` and `Downcase` change the letters `a`-`z` and `A`-`Z` and leave every other character alone.
- Config.Configuration.AddCamelization: lower-cases the name before storing it. In OmniAuth, `add_camelization` stores the name exactly as given and expects the caller to pass it in lower case. The two differ only for a mixed-case name: after `add_camelization('OAuth', 'OAuth')` this model camelizes `oauth` to `OAuth`, while OmniAuth's entry would never be found, because the lookup lower-cases the token.
- Splitting keeps empty segments (from `__`, or a leading or trailing `_`). They camelize to nothing, so the result is the same as when they are dropped.
- Test-suite scaffolding (the `before` and `after` hooks that save and restore `path_prefix` and `on_failure`) is not modelled.
- Rack middleware, request and callback phases, provider protocols (OAuth, OpenID), logging and concurrent access to the shared configuration are outside this core.
