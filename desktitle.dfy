/** The DeskTitle gadget module: the global configuration (`ut_config`)
    with its item list, its list of live gadget instances and its single
    open-menu slot, and the callbacks the host calls on it. Host objects
    (gadget clients, themed objects, menus, timers) are reduced to the
    fields the module reads and writes. */
module DeskTitle {
  import opened CText
  import opened ConfigItems
  import opened DeskNames

  /** Period, in seconds, of the timer `_gc_init` installs on a new instance. */
  const InitialPeriod: real := 0.1

  /** The mouse button that opens the context menu. */
  const MenuButton := 3

  /** An Ecore timer: its period and the instance passed to its callback. */
  class Timer {
    const period: real
    const target: Instance

    constructor (period: real, target: Instance)
      ensures this.period == period && this.target == target
    {
      this.period := period;
      this.target := target;
    }
  }

  /** The themed gadget object (`Uptime`), reduced to the text of its
      "desktitle" part. */
  class Uptime {
    var text: string

    constructor ()
      ensures text == ""
    {
      text := "";
    }
  }

  /** One placed gadget (`Instance`): its config item, its themed object and
      its polling timer. */
  class Instance {
    const ci: ConfigItem
    const ut: Uptime?
    var monitor: Timer?

    constructor (ci: ConfigItem, ut: Uptime?)
      ensures this.ci == ci && this.ut == ut && monitor == null
    {
      this.ci := ci;
      this.ut := ut;
      monitor := null;
    }
  }

  /** The host's gadget client, reduced to the instance it carries as data. */
  class Client {
    var data: Instance?

    constructor (data: Instance?)
      ensures this.data == data
    {
      this.data := data;
    }
  }

  /** An open context menu and the instance it was opened for. */
  class Menu {
    const owner: Instance

    constructor (owner: Instance)
      ensures this.owner == owner
    {
      this.owner := owner;
    }
  }

  predicate Distinct<T(==)>(s: seq<T>) {
    forall i, j :: 0 <= i < j < |s| ==> s[i] != s[j]
  }

  /** The position of the first occurrence of `x` in `s`. */
  function FirstIndex<T(==)>(s: seq<T>, x: T): (k: nat)
    requires x in s
    ensures k < |s| && s[k] == x && x !in s[..k]
  {
    if s[0] == x then 0
    else
      var k := FirstIndex(s[1..], x) + 1;
      assert s[..k] == [s[0]] + s[1..][..k - 1];
      k
  }

  /** `eina_list_remove`: the list without the first occurrence of `x`. */
  function RemoveFirst<T(==)>(s: seq<T>, x: T): (r: seq<T>)
    ensures x !in s ==> r == s
    ensures x in s ==> |r| == |s| - 1 && multiset(r) == multiset(s) - multiset{x}
    ensures x in s ==> exists k :: 0 <= k < |s| && s[k] == x && x !in s[..k] && r == s[..k] + s[k + 1..]
  {
    if x in s then
      var k := FirstIndex(s, x);
      assert s == s[..k] + [x] + s[k + 1..];
      s[..k] + s[k + 1..]
    else s
  }

  /** Removing an element from a list without repetitions keeps it without
      repetitions and removes exactly that element. */
  lemma RemoveFirstDistinct<T>(s: seq<T>, x: T)
    requires Distinct(s)
    ensures Distinct(RemoveFirst(s, x))
    ensures forall y :: y in RemoveFirst(s, x) <==> y in s && y != x
  {
  }

  /** The global configuration `ut_config`, with the set of this module's
      live timers (`timers`) beside it. */
  class Module {
    var items: seq<ConfigItem>
    var instances: seq<Instance>
    var menu: Menu?
    var timers: set<Timer>

    /** Every live instance is registered once and owns exactly one live
        timer, whose callback is for that instance; every live timer belongs
        to a registered instance. */
    ghost predicate Valid()
      reads this, instances
    {
      && Distinct(instances)
      && (forall x :: x in instances ==> x.monitor != null && x.monitor in timers && x.monitor.target == x)
      && (forall t :: t in timers ==> t.target in instances && t.target.monitor == t)
    }

    /** `e_modapi_init`: the loaded configuration, or when there is none a
        fresh one holding the single default item "0". */
    constructor Load(saved: Option<seq<ConfigItem>>)
      ensures Valid()
      ensures saved.Some? ==> items == saved.value
      ensures saved.None? ==> |items| == 1 && fresh(items[0]) && items[0].id == Some("0")
      ensures saved.None? ==> items[0].checkInterval == DefaultInterval && items[0].updateInterval == DefaultInterval
      ensures instances == [] && menu == null && timers == {}
    {
      if saved.Some? {
        items := saved.value;
      } else {
        var ci := new ConfigItem(Some("0"));
        items := [ci];
      }
      instances := [];
      menu := null;
      timers := {};
    }

    /** `_ut_config_item_get`: find the item with the given id, or append a
        new one, with a synthesised id when none is given. */
    method ConfigItemGet(id: Option<string>) returns (ci: ConfigItem)
      requires Valid()
      requires id.Some? || CanSynthesize(items)
      modifies this`items
      ensures Valid()
      ensures Resolved(old(items), id, items, ci)
      ensures ci in old(items) || fresh(ci)
      ensures id.None? ==> fresh(ci)
    {
      var key: string;
      if id.None? {
        key := NewId(items);
      } else {
        var k := 0;
        while k < |items|
          invariant 0 <= k <= |items|
          invariant forall j :: 0 <= j < k ==> items[j].id != id
        {
          var c := items[k];
          // an item with a null id is skipped
          if c.id.Some? && c.id.value == id.value {
            ci := c;
            return;
          }
          k := k + 1;
        }
        key := id.value;
      }
      ci := new ConfigItem(Some(key));
      items := items + [ci];
    }

    /** `_gc_id_new`: the id of a newly created item. */
    method IdNew() returns (id: string)
      requires Valid()
      requires CanSynthesize(items)
      modifies this`items
      ensures Valid()
      ensures |items| == |old(items)| + 1
      ensures Resolved(old(items), None, items, items[|old(items)|])
      ensures fresh(items[|old(items)|]) && id == NewId(old(items))
    {
      var ci := ConfigItemGet(None);
      id := ci.id.value;
    }

    /** `_gc_init`: resolve the instance's item, register the instance and
        give it a timer, since a new instance has none. */
    method GadconInit(id: Option<string>) returns (client: Client)
      requires Valid()
      requires id.Some? || CanSynthesize(items)
      modifies this
      ensures Valid()
      ensures fresh(client) && client.data != null && fresh(client.data)
      ensures var inst := client.data;
        && Resolved(old(items), id, items, inst.ci)
        && (inst.ci in old(items) || fresh(inst.ci))
        && instances == old(instances) + [inst]
        && inst.ut != null && fresh(inst.ut) && inst.ut.text == ""
        && inst.monitor != null && fresh(inst.monitor) && inst.monitor.period == InitialPeriod
        && timers == old(timers) + {inst.monitor}
      ensures menu == old(menu)
    {
      var ci := ConfigItemGet(id);
      var ut := new Uptime();
      var inst := new Instance(ci, ut);
      client := new Client(inst);
      instances := instances + [inst];
      if inst.monitor == null {
        var t := new Timer(InitialPeriod, inst);
        inst.monitor := t;
        timers := timers + {t};
      }
    }

    /** `_gc_shutdown`: with a client, its data and the instance's themed
        object all present, cancel the instance's timer and unregister it;
        otherwise return without a change. */
    method GadconShutdown(client: Client?)
      requires Valid()
      requires client != null && client.data != null && client.data.ut != null ==> client.data in instances
      modifies this
      ensures Valid()
      ensures items == old(items) && menu == old(menu)
      ensures client == null || client.data == null || client.data.ut == null ==>
        instances == old(instances) && timers == old(timers)
      ensures client != null && client.data != null && client.data.ut != null ==>
        && instances == RemoveFirst(old(instances), client.data)
        && client.data !in instances
        && timers == old(timers) - {client.data.monitor}
    {
      if client == null { return; }
      if client.data == null { return; }
      var inst := client.data;
      if inst.ut == null { return; }
      if inst.monitor != null {
        timers := timers - {inst.monitor};
      }
      RemoveFirstDistinct(instances, inst);
      instances := RemoveFirst(instances, inst);
    }

    /** `_ut_cb_mouse_down`: while a menu is open nothing happens; otherwise
        button 3 opens a menu for the instance and records it. */
    method MouseDown(inst: Instance, button: int)
      requires Valid()
      modifies this`menu
      ensures Valid()
      ensures old(menu) != null ==> menu == old(menu)
      ensures old(menu) == null && button == MenuButton ==> menu != null && fresh(menu) && menu.owner == inst
      ensures old(menu) == null && button != MenuButton ==> menu == null
    {
      if menu != null { return; }
      if button == MenuButton {
        var m := new Menu(inst);
        menu := m;
      }
    }

    /** `_ut_menu_cb_post`: the dismissed menu is destroyed and the slot
        cleared; with the slot empty nothing happens. */
    method MenuPost()
      requires Valid()
      modifies this`menu
      ensures Valid()
      ensures menu == null
    {
      if menu == null { return; }
      menu := null;
    }

    /** `e_modapi_shutdown`: close an open menu and release every item. */
    method Unload()
      requires Valid()
      modifies this`menu, this`items
      ensures Valid()
      ensures menu == null && items == []
    {
      if menu != null {
        menu := null;
      }
      while items != []
        invariant Valid()
        invariant menu == null
        decreases |items|
      {
        items := items[1..];
      }
    }
  }

  /** `_ut_config_updated`: every instance bound to `ci` gets its timer
      cancelled and a new one with `ci`'s update interval; other instances
      keep theirs. Without a global configuration nothing happens. */
  method ConfigUpdated(config: Module?, ci: ConfigItem)
    requires config != null ==> config.Valid()
    modifies config, if config != null then config.instances else []
    ensures config != null ==>
      && config.Valid()
      && config.instances == old(config.instances)
      && config.items == old(config.items) && config.menu == old(config.menu)
    ensures config != null ==> forall x :: x in config.instances ==>
      if x.ci == ci then fresh(x.monitor) && x.monitor.period == ci.updateInterval as real
      else x.monitor == old(x.monitor)
    ensures config != null ==> forall t :: t in old(config.timers) ==>
      (t in config.timers <==> t.target.ci != ci)
  {
    if config == null { return; }
    var k := 0;
    while k < |config.instances|
      invariant 0 <= k <= |config.instances|
      invariant config.Valid()
      invariant config.instances == old(config.instances)
      invariant config.items == old(config.items) && config.menu == old(config.menu)
      invariant forall x :: x in config.instances[..k] && x.ci == ci ==>
        fresh(x.monitor) && x.monitor.period == ci.updateInterval as real
      invariant forall x :: x in config.instances && !(x in config.instances[..k] && x.ci == ci) ==>
        x.monitor == old(x.monitor)
      invariant forall t :: t in old(config.timers) ==>
        (t in config.timers <==> !(t.target.ci == ci && t.target in config.instances[..k]))
    {
      var inst := config.instances[k];
      assert config.instances[..k + 1] == config.instances[..k] + [inst];
      if inst.ci == ci {
        if inst.monitor != null {
          config.timers := config.timers - {inst.monitor};
        }
        var t := new Timer(ci.updateInterval as real, inst);
        inst.monitor := t;
        config.timers := config.timers + {t};
      }
      k := k + 1;
    }
    assert config.instances[..k] == config.instances;
  }

  /** `_ut_cb_check`: set the instance's text to the title of its zone's
      current desk (zone number and desk position as the host reports them)
      and keep the timer running; with no instance, stop it. */
  method Check(inst: Instance?, zoneNum: int, deskX: int, deskY: int, names: seq<Option<DesktopName>>)
    returns (keep: bool)
    requires inst != null ==> inst.ut != null
    modifies if inst != null then {inst.ut} else {}
    ensures keep <==> inst != null
    ensures inst != null ==> inst.ut.text == SelectTitle(names, zoneNum, deskX, deskY)
  {
    if inst == null { return false; }
    var k := 0;
    while k < |names|
      invariant 0 <= k <= |names|
      invariant SelectTitle(names[k..], zoneNum, deskX, deskY) == SelectTitle(names, zoneNum, deskX, deskY)
    {
      var dn := names[k];
      // null records, other zones, other desks and null names are skipped
      if dn.Some? && dn.value.zone == zoneNum && dn.value.deskX == deskX && dn.value.deskY == deskY
        && dn.value.name.Some?
      {
        inst.ut.text := dn.value.name.value;
        return true;
      }
      assert names[k..][1..] == names[k + 1..];
      k := k + 1;
    }
    inst.ut.text := "";
    return true;
  }
}
