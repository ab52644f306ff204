# Sidebar facade model

This project models the `Sidebar` facade of the `NWP\Facade` namespace, a
fluent builder over a WordPress sidebar (widget area). A `Sidebar` object
holds one configuration record, `$info`, with eight string keys. The
constructor lays caller options over the all-empty defaults with
`array_merge` and then forces `id` and `name` to its arguments. Six fluent
setters each overwrite one key and return the object itself. `register()` and
`unregister()` do not call `register_sidebar` or `unregister_sidebar` at once.
Each one subscribes a closure to the `widgets_init` event through the event
collector and flushes the subscription. When the event fires, the closure passes the
record, as it is at that moment, to `register_sidebar` or
`unregister_sidebar`.

The Dafny module `Facade` (file `sidebar.dfy`) has two layers:

- Specification functions over values. `Defaults`, `ArrayMerge` and
  `InitialInfo` give the record after construction. `Setter`, `KeyOf` and
  `Apply` give one setter call. `ApplyAll` and `LastWrite` give a whole
  fluent chain. `Dispatch` gives the host calls made when the queued
  closures run. Lemmas state the properties of these functions.
- The class `Sidebar`. Its field `info` is the record as a
  `map<string, string>`. Its field `pending` is the queue of closures not yet
  fired. Each method is proved against the specification functions. The
  ghost constants `Id` and `Name` hold the identity the constructor fixed,
  and the class invariant `Valid()` keeps `info["id"]` and `info["name"]`
  equal to them. The method `FireWidgetsInit` runs this one object's queued
  closures, as the host does when `widgets_init` fires. It looks `info` up
  when it runs, not when `register` was called.

Three details of the code shape the model:

- The default table (src/Facade/Sidebar.php:26-35) already holds `id` and
  `name`, both `""`, and the constructor then overwrites them.
- The closures (src/Facade/Sidebar.php:105-107 and :118-120) read
  `$this->info` when they run; they hold no copy. `LateSetterScenario` proves
  that a setter called between `register()` and the event is visible to the
  host.
- `__get` (src/Facade/Sidebar.php:73) indexes the array directly. The model
  makes a present key a precondition of `Get`.

## Model

| member | source | states |
|---|---|---|
| `Facade.Defaults` | src/Facade/Sidebar.php:26-35 | the default record has exactly the eight keys `name`, `id`, `before_widget`, `after_widget`, `before_title`, `after_title`, `class`, `description`, each mapped to `""` |
| `Facade.ArrayMerge` | src/Facade/Sidebar.php:49 | `array_merge` on string keys keeps the keys of both arrays; the option's value wins on a shared key and the default's value stays elsewhere |
| `Facade.InitialInfo` | src/Facade/Sidebar.php:46-52 | after construction the keys are the eight defaults plus the option keys; `id` and `name` equal the arguments even when the options hold those keys; any other option key holds the option's value; any other default key the options do not mention holds `""` |
| `Facade.Sidebar.constructor` | src/Facade/Sidebar.php:46-52 | the new object's record is `InitialInfo(id, name, options)`, its queue is empty, its ghost identity is `id`/`name`, and the object invariant holds |
| `Facade.Sidebar.Get` | src/Facade/Sidebar.php:71-74 | for a key present in the record, returns that key's value and changes nothing |
| `Facade.KeyOf` | src/Facade/Sidebar.php:129-184 | each setter writes one of the six non-identity default keys, never `id` or `name` |
| `Facade.Apply` | src/Facade/Sidebar.php:129-184 | one setter call sets exactly its own key to the value, adds no other key, removes none, and leaves every other entry, `id` and `name` included, unchanged |
| `Facade.Sidebar.BeforeTitle` | src/Facade/Sidebar.php:129-134 | sets `before_title` as `Apply` says, leaves the queue alone, keeps the invariant and returns the same object |
| `Facade.Sidebar.AfterTitle` | src/Facade/Sidebar.php:141-146 | sets `after_title` as `Apply` says, leaves the queue alone, keeps the invariant and returns the same object |
| `Facade.Sidebar.BeforeWidget` | src/Facade/Sidebar.php:153-158 | sets `before_widget` as `Apply` says, leaves the queue alone, keeps the invariant and returns the same object |
| `Facade.Sidebar.AfterWidget` | src/Facade/Sidebar.php:165-170 | sets `after_widget` as `Apply` says, leaves the queue alone, keeps the invariant and returns the same object |
| `Facade.Sidebar.Description` | src/Facade/Sidebar.php:172-177 | sets `description` as `Apply` says, leaves the queue alone, keeps the invariant and returns the same object |
| `Facade.Sidebar.ClassName` | src/Facade/Sidebar.php:179-184 | sets `class` as `Apply` says, leaves the queue alone, keeps the invariant and returns the same object |
| `Facade.SetterLastWins` | src/Facade/Sidebar.php:129-184 | calling a setter twice leaves the record of the second call alone; with the same value twice, the same record as one call (idempotence) |
| `Facade.SettersCommute` | src/Facade/Sidebar.php:129-184 | two different setters give the same record in either order |
| `Facade.ApplyAll` | src/Facade/Sidebar.php:129-184 | a fluent chain of setter calls, applied left to right, removes no key and adds only setter keys |
| `Facade.LastWrite` | src/Facade/Sidebar.php:129-184 | only the six setter keys are ever written by a chain |
| `Facade.ChainEffect` | src/Facade/Sidebar.php:129-184 | after a fluent chain, each key holds the value of the last call that wrote it, or its earlier value (or stays absent) when no call wrote it |
| `Facade.ChainKeepsIdentity` | src/Facade/Sidebar.php:129-184 | a fluent chain removes no key and never changes `id` or `name` |
| `Facade.Sidebar.Register` | src/Facade/Sidebar.php:103-109 | appends exactly one pending `Register` action on `widgets_init`, leaves the record unchanged and makes no host call; repeated calls append repeated actions |
| `Facade.Sidebar.Unregister` | src/Facade/Sidebar.php:116-122 | appends exactly one pending `Unregister` action on `widgets_init`, leaves the record unchanged and makes no host call |
| `Facade.HostFunction` | src/Facade/Sidebar.php:105-120 | a `Register` action calls `register_sidebar` and an `Unregister` action calls `unregister_sidebar`, and no other pairing |
| `Facade.Dispatch` | src/Facade/Sidebar.php:103-122 | the queued closures give one host call each, in queue order, each calling its action's host function with the record as it is at fire time |
| `Facade.DispatchAppend` | src/Facade/Sidebar.php:103-122 | firing a queue built in two runs is firing each run in turn: nothing is de-duplicated or reordered |
| `Facade.Sidebar.FireWidgetsInit` | src/Facade/Sidebar.php:103-122 | firing `widgets_init` runs every pending closure once with the current record, empties the queue and leaves the record unchanged |
| `Facade.FooterScenario` | src/Facade/Sidebar.php:103-109 | `footer-1`/`Footer Widgets` with a `<div>` wrapper, registered once and fired, gives exactly one `register_sidebar` call with the full eight-key record |
| `Facade.LateSetterScenario` | src/Facade/Sidebar.php:105-106 | a setter called after `register()` and before the event is seen by the host call, because the closure reads the record at fire time |
| `Facade.TwoSidebarsScenario` | src/Facade/Sidebar.php:103-108 | two sidebars built from their own arguments, each registered, give two `register_sidebar` calls when the event fires, each with its own record and no cross-contamination |

## Left out

- `exists`, `render` and `isActive` (src/Facade/Sidebar.php:61-96): each only calls a WordPress global (`is_dynamic_sidebar`, `dynamic_sidebar`, `is_active_sidebar`) whose result and output belong to the host.
- `register_sidebar` and `unregister_sidebar` themselves: the host's registry is opaque, so a fired closure is recorded only as a `HostCall` with the function name and the record.
- The event collector base class `AbstractEventCollector` is not part of this model. Its `on` followed by `register` is one append to the object's `pending` queue, and the host's dispatch order between different objects is not modelled.
- Facade.Sidebar.FireWidgetsInit: firing is per object. The host's `widgets_init` runs the closures of every `Sidebar` in one dispatch, but the model fires each object's queue on its own, so it admits histories the host cannot produce (fire one object, change another, then fire that one). `TwoSidebarsScenario` joins two objects' calls by hand.
- `Utils::getInstance()` (src/Facade/Sidebar.php:48): a singleton of a class that is not part of this model and does not touch the record.
- Facade.Sidebar.Get: a missing key is a precondition; PHP would emit a warning and return `null`, which is not modelled.
- Facade.ArrayMerge: keys are strings only; PHP turns numeric-string keys into integers and `array_merge` renumbers those, which is not modelled.
- The insertion order of PHP array keys is not modelled: the record is a `map`, and the host reads it by key.
- Failures raised by the host at subscription or fire time are not modelled.
