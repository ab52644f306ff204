/** A model of the sidebar facade: a configuration record of eight string
    keys, built by merging caller options over defaults and then forcing the
    identity keys, refined by six fluent setters that each overwrite one key,
    and registered or unregistered with the host platform through closures
    that are queued on the `widgets_init` event and read the record only when
    that event fires. */
module Facade {

  datatype Option<T> = None | Some(value: T)

  /** The event every deferred action subscribes to. */
  const EventWidgetsInit: string := "widgets_init"

  /** Names of the host functions the deferred closures call. */
  const RegisterSidebarFn: string := "register_sidebar"
  const UnregisterSidebarFn: string := "unregister_sidebar"

  /** The keys of the default record. */
  const DefaultKeys: set<string> :=
    {"name", "id", "before_widget", "after_widget", "before_title", "after_title", "class", "description"}

  /** The two keys the constructor forces and no setter touches. */
  const IdentityKeys: set<string> := {"id", "name"}

  /** The keys the six fluent setters write. */
  const SetterKeys: set<string> :=
    {"before_widget", "after_widget", "before_title", "after_title", "class", "description"}

  /** The default record: every key maps to the empty string. */
  function Defaults(): (m: map<string, string>)
    ensures m.Keys == DefaultKeys
    ensures forall k :: k in m ==> m[k] == ""
  {
    map["name" := "", "id" := "", "before_widget" := "", "after_widget" := "",
        "before_title" := "", "after_title" := "", "class" := "", "description" := ""]
  }

  /** `array_merge` on two string-keyed arrays: the later array's value wins
      on a shared key, and keys of either array are kept. */
  function ArrayMerge(base: map<string, string>, over: map<string, string>): (r: map<string, string>)
    ensures r.Keys == base.Keys + over.Keys
    ensures forall k :: k in over ==> r[k] == over[k]
    ensures forall k :: k in base && k !in over ==> r[k] == base[k]
  {
    base + over
  }

  /** The record the constructor leaves behind. */
  function InitialInfo(id: string, name: string, options: map<string, string>): (r: map<string, string>)
    ensures r.Keys == DefaultKeys + options.Keys
    ensures r["id"] == id && r["name"] == name
    ensures forall k :: k in DefaultKeys - IdentityKeys && k !in options ==> r[k] == ""
    ensures forall k :: k in options && k !in IdentityKeys ==> r[k] == options[k]
  {
    ArrayMerge(Defaults(), options)["id" := id]["name" := name]
  }

  /** The six fluent setters, one per writable key. */
  datatype Setter = BeforeTitle | AfterTitle | BeforeWidget | AfterWidget | Description | ClassName

  /** The key a setter writes. */
  function KeyOf(s: Setter): (k: string)
    ensures k in SetterKeys && k in DefaultKeys && k !in IdentityKeys
  {
    match s
    case BeforeTitle => "before_title"
    case AfterTitle => "after_title"
    case BeforeWidget => "before_widget"
    case AfterWidget => "after_widget"
    case Description => "description"
    case ClassName => "class"
  }

  /** The record after one setter call with `value`. */
  function Apply(info: map<string, string>, s: Setter, value: string): (r: map<string, string>)
    ensures r.Keys == info.Keys + {KeyOf(s)}
    ensures r[KeyOf(s)] == value
    ensures forall k :: k in info && k != KeyOf(s) ==> r[k] == info[k]
    ensures forall k :: k in IdentityKeys && k in info ==> r[k] == info[k]
  {
    info[KeyOf(s) := value]
  }

  /** One link of a fluent chain such as `->beforeWidget('<div>')`. */
  datatype SetterCall = SetterCall(setter: Setter, value: string)

  /** The record after a whole chain of setter calls, applied left to right. */
  function ApplyAll(info: map<string, string>, calls: seq<SetterCall>): (r: map<string, string>)
    ensures info.Keys <= r.Keys <= info.Keys + SetterKeys
  {
    if calls == [] then info
    else
      var last := calls[|calls| - 1];
      Apply(ApplyAll(info, calls[..|calls| - 1]), last.setter, last.value)
  }

  /** The value the last call of the chain writing `key` wrote, if any. */
  function LastWrite(calls: seq<SetterCall>, key: string): (r: Option<string>)
    ensures r.Some? ==> key in SetterKeys
  {
    if calls == [] then None
    else if KeyOf(calls[|calls| - 1].setter) == key then Some(calls[|calls| - 1].value)
    else LastWrite(calls[..|calls| - 1], key)
  }

  /** What a deferred closure calls: register or unregister. */
  datatype Operation = Register | Unregister

  /** A closure waiting in the event collector for its event. */
  datatype PendingAction = PendingAction(event: string, op: Operation)

  /** A call into the host platform: the function name and the record passed. */
  datatype HostCall = HostCall(fn: string, info: map<string, string>)

  function HostFunction(op: Operation): (name: string)
    ensures name == RegisterSidebarFn <==> op == Register
    ensures name == UnregisterSidebarFn <==> op == Unregister
  {
    match op
    case Register => RegisterSidebarFn
    case Unregister => UnregisterSidebarFn
  }

  /** The host calls made when the queued closures run, in queue order; each
      closure passes the record as it is when the event fires. */
  function Dispatch(actions: seq<PendingAction>, info: map<string, string>): (calls: seq<HostCall>)
    ensures |calls| == |actions|
    ensures forall i :: 0 <= i < |actions| ==>
      calls[i].info == info && calls[i].fn == HostFunction(actions[i].op)
  {
    if actions == [] then []
    else [HostCall(HostFunction(actions[0].op), info)] + Dispatch(actions[1..], info)
  }

  class Sidebar {
    /** The sidebar arguments, handed to the host when an action fires. */
    var info: map<string, string>
    /** Closures subscribed through this object and not yet fired. */
    var pending: seq<PendingAction>
    /** The identity the constructor fixed. */
    ghost const Id: string
    ghost const Name: string

    /** Every default key is present, `id` and `name` still hold the identity
        the constructor fixed, and every queued closure waits for `widgets_init`. */
    ghost predicate Valid()
      reads this
    {
      && DefaultKeys <= info.Keys
      && info["id"] == Id && info["name"] == Name
      && forall i :: 0 <= i < |pending| ==> pending[i].event == EventWidgetsInit
    }

    constructor (id: string, name: string, options: map<string, string>)
      ensures Valid() && Id == id && Name == name
      ensures info == InitialInfo(id, name, options)
      ensures pending == []
    {
      Id, Name := id, name;
      var merged := ArrayMerge(Defaults(), options);
      merged := merged["id" := id];
      merged := merged["name" := name];
      info := merged;
      pending := [];
    }

    /** Reads one entry of the record. */
    method Get(key: string) returns (value: string)
      requires key in info
      ensures value == info[key]
    {
      value := info[key];
    }

    method BeforeTitle(value: string) returns (self: Sidebar)
      requires Valid()
      modifies this
      ensures self == this && Valid()
      ensures info == Apply(old(info), Setter.BeforeTitle, value)
      ensures pending == old(pending)
    {
      info := info["before_title" := value];
      self := this;
    }

    method AfterTitle(value: string) returns (self: Sidebar)
      requires Valid()
      modifies this
      ensures self == this && Valid()
      ensures info == Apply(old(info), Setter.AfterTitle, value)
      ensures pending == old(pending)
    {
      info := info["after_title" := value];
      self := this;
    }

    method BeforeWidget(value: string) returns (self: Sidebar)
      requires Valid()
      modifies this
      ensures self == this && Valid()
      ensures info == Apply(old(info), Setter.BeforeWidget, value)
      ensures pending == old(pending)
    {
      info := info["before_widget" := value];
      self := this;
    }

    method AfterWidget(value: string) returns (self: Sidebar)
      requires Valid()
      modifies this
      ensures self == this && Valid()
      ensures info == Apply(old(info), Setter.AfterWidget, value)
      ensures pending == old(pending)
    {
      info := info["after_widget" := value];
      self := this;
    }

    method Description(value: string) returns (self: Sidebar)
      requires Valid()
      modifies this
      ensures self == this && Valid()
      ensures info == Apply(old(info), Setter.Description, value)
      ensures pending == old(pending)
    {
      info := info["description" := value];
      self := this;
    }

    method ClassName(value: string) returns (self: Sidebar)
      requires Valid()
      modifies this
      ensures self == this && Valid()
      ensures info == Apply(old(info), Setter.ClassName, value)
      ensures pending == old(pending)
    {
      info := info["class" := value];
      self := this;
    }

    /** Queues a closure that registers the sidebar when `widgets_init` fires. */
    method Register()
      requires Valid()
      modifies this
      ensures Valid()
      ensures info == old(info)
      ensures pending == old(pending) + [PendingAction(EventWidgetsInit, Operation.Register)]
    {
      pending := pending + [PendingAction(EventWidgetsInit, Operation.Register)];
    }

    /** Queues a closure that unregisters the sidebar when `widgets_init` fires. */
    method Unregister()
      requires Valid()
      modifies this
      ensures Valid()
      ensures info == old(info)
      ensures pending == old(pending) + [PendingAction(EventWidgetsInit, Operation.Unregister)]
    {
      pending := pending + [PendingAction(EventWidgetsInit, Operation.Unregister)];
    }

    /** The host fires `widgets_init`: every queued closure runs once, in
        order, reading the record as it is now, and the queue is consumed. */
    method FireWidgetsInit() returns (calls: seq<HostCall>)
      requires Valid()
      modifies this
      ensures Valid()
      ensures info == old(info) && pending == []
      ensures calls == Dispatch(old(pending), info)
    {
      calls := Dispatch(pending, info);
      pending := [];
    }
  }

  /** A second call of the same setter overwrites the first; with the same
      value, calling it twice is the same as calling it once. */
  lemma SetterLastWins(info: map<string, string>, s: Setter, v: string, w: string)
    ensures Apply(Apply(info, s, v), s, w) == Apply(info, s, w)
    ensures Apply(Apply(info, s, v), s, v) == Apply(info, s, v)
  {
  }

  /** Setters of different keys commute, so the order of a chain matters
      only between calls of the same setter. */
  lemma SettersCommute(info: map<string, string>, s: Setter, t: Setter, v: string, w: string)
    requires s != t
    ensures Apply(Apply(info, s, v), t, w) == Apply(Apply(info, t, w), s, v)
  {
  }

  /** After a chain, a key holds the value of the last call writing it, or
      its earlier value when no call wrote it. */
  lemma {:induction false} ChainEffect(info: map<string, string>, calls: seq<SetterCall>, key: string)
    ensures match LastWrite(calls, key)
      case Some(v) => key in ApplyAll(info, calls) && ApplyAll(info, calls)[key] == v
      case None =>
        && (key in ApplyAll(info, calls) <==> key in info)
        && (key in info ==> ApplyAll(info, calls)[key] == info[key])
  {
    if calls != [] {
      ChainEffect(info, calls[..|calls| - 1], key);
    }
  }

  /** A chain removes no key and never changes `id` or `name`. */
  lemma {:induction false} ChainKeepsIdentity(info: map<string, string>, calls: seq<SetterCall>)
    ensures info.Keys <= ApplyAll(info, calls).Keys
    ensures forall k :: k in IdentityKeys && k in info ==> ApplyAll(info, calls)[k] == info[k]
  {
    forall k | k in info
      ensures k in ApplyAll(info, calls)
      ensures k in IdentityKeys ==> ApplyAll(info, calls)[k] == info[k]
    {
      ChainEffect(info, calls, k);
    }
  }

  /** Firing two queued runs of closures is firing their concatenation: the
      queue is not de-duplicated and keeps its order. */
  lemma {:induction false} DispatchAppend(a: seq<PendingAction>, b: seq<PendingAction>, info: map<string, string>)
    ensures Dispatch(a + b, info) == Dispatch(a, info) + Dispatch(b, info)
  {
    if a != [] {
      assert (a + b)[1..] == a[1..] + b;
      DispatchAppend(a[1..], b, info);
    }
  }

  /** The record a footer sidebar wrapped in a div hands to the host. */
  lemma FooterRecord(info: map<string, string>)
    requires info == Apply(Apply(InitialInfo("footer-1", "Footer Widgets", map[]),
      Setter.BeforeWidget, "<div>"), Setter.AfterWidget, "</div>")
    ensures info.Keys == DefaultKeys
    ensures info["id"] == "footer-1" && info["name"] == "Footer Widgets"
    ensures info["before_widget"] == "<div>" && info["after_widget"] == "</div>"
    ensures info["before_title"] == "" && info["after_title"] == ""
    ensures info["class"] == "" && info["description"] == ""
  {
  }

  /** A footer sidebar wrapped in a div, registered once and fired, gives
      exactly one `register_sidebar` call with the full record. */
  method FooterScenario() returns (calls: seq<HostCall>)
    ensures |calls| == 1 && calls[0].fn == RegisterSidebarFn
    ensures calls[0].info.Keys == DefaultKeys
    ensures calls[0].info["id"] == "footer-1" && calls[0].info["name"] == "Footer Widgets"
    ensures calls[0].info["before_widget"] == "<div>" && calls[0].info["after_widget"] == "</div>"
    ensures calls[0].info["before_title"] == "" && calls[0].info["after_title"] == ""
    ensures calls[0].info["class"] == "" && calls[0].info["description"] == ""
  {
    var sidebar := new Sidebar("footer-1", "Footer Widgets", map[]);
    var chained := sidebar.BeforeWidget("<div>");
    chained := chained.AfterWidget("</div>");
    sidebar.Register();
    calls := sidebar.FireWidgetsInit();
    FooterRecord(calls[0].info);
  }

  /** A setter called after `register` but before the event fires is seen by
      the fired closure: the record is read at fire time, not copied. */
  method LateSetterScenario(id: string, name: string, options: map<string, string>, title: string)
    returns (calls: seq<HostCall>)
    ensures |calls| == 1 && calls[0].fn == RegisterSidebarFn
    ensures calls[0].info == Apply(InitialInfo(id, name, options), Setter.BeforeTitle, title)
    ensures calls[0].info["before_title"] == title
  {
    var sidebar := new Sidebar(id, name, options);
    sidebar.Register();
    var _ := sidebar.BeforeTitle(title);
    calls := sidebar.FireWidgetsInit();
  }

  /** A sidebar built from its arguments and registered once. */
  method NewRegistered(id: string, name: string, options: map<string, string>) returns (sidebar: Sidebar)
    ensures fresh(sidebar) && sidebar.Valid()
    ensures sidebar.info == InitialInfo(id, name, options)
    ensures sidebar.pending == [PendingAction(EventWidgetsInit, Register)]
  {
    sidebar := new Sidebar(id, name, options);
    sidebar.Register();
  }

  /** Two sidebars built from their own arguments, each registered, give two
      calls when the event fires, each carrying its own record. */
  method TwoSidebarsScenario(
    idA: string, nameA: string, optionsA: map<string, string>,
    idB: string, nameB: string, optionsB: map<string, string>)
    returns (calls: seq<HostCall>)
    ensures |calls| == 2
    ensures calls[0] == HostCall(RegisterSidebarFn, InitialInfo(idA, nameA, optionsA))
    ensures calls[1] == HostCall(RegisterSidebarFn, InitialInfo(idB, nameB, optionsB))
  {
    var a := NewRegistered(idA, nameA, optionsA);
    var b := NewRegistered(idB, nameB, optionsB);
    var fromA := a.FireWidgetsInit();
    var fromB := b.FireWidgetsInit();
    calls := fromA + fromB;
  }
}
