/** The device registry of src/sys_dev_manage.c, a client of the ring list. */
module Registry {
  import opened Ring

  const ELEXSMRT_FIRST := 0x0
  const ELEXSMRT_DEV_NONE := 0x100

  /** `dev_basic`, as far as the registry sets it. */
  class Device {
    const link: ListHead
    var next: Device?
    var name: string
    var serialNo: string
    var buildName: string
    var userName: string
    var devType: int
    var operation: int

    constructor ()
      ensures fresh(link) && IsRing(link, []) && next == null
    {
      link := new ListHead();
      next := null;
    }
  }

  class DeviceManager {
    var first: Device?
    var last: Device?
    var devices: Device?

    constructor ()
      ensures first == null && last == null && devices == null
    {
      first, last, devices := null, null, null;
    }

    /** `system_dev_init` */
    method SystemDevInit()
      modifies this
      ensures devices != null && fresh(devices) && fresh(devices.link)
      ensures first == devices && last == devices && devices.next == devices
      ensures IsRing(devices.link, [])
      ensures devices.name == devices.serialNo == "first" && devices.buildName == devices.userName == "sys"
      ensures devices.devType == ELEXSMRT_FIRST && devices.operation == ELEXSMRT_DEV_NONE
    {
      var d := new Device();
      d.name, d.serialNo := "first", "first";
      d.devType, d.operation := ELEXSMRT_FIRST, ELEXSMRT_DEV_NONE;
      d.buildName, d.userName := "sys", "sys";
      d.next := d;
      devices, first, last := d, d, d;
    }
  }

  /** The walk along `next` from the head visits `s`. */
  ghost predicate Walk(head: ListHead, s: seq<ListHead>)
    reads head, s
  {
    Distinct(head, s) && NextChain(head, s)
  }

  /** A ring seen from its first entry. */
  lemma SeenFromFirst(head: ListHead, s: seq<ListHead>)
    requires IsRing(head, s) && s != []
    ensures IsRing(s[0], s[1..] + [head])
  {
    var t := s[1..] + [head];
    forall i | 0 <= i < |t|
      ensures t[i].next == At(s[0], t, i + 1) && t[i].prev == At(s[0], t, i - 1)
    {
      assert i < |s| - 1 ==> t[i] == s[i + 1];
    }
    assert s[0].next == At(head, s, 1) && s[0].prev == head;
  }

  /** `list_add(entry, head)` when `entry` is not on the ring of `head`: seen from `entry`, it joins that ring. */
  lemma Joined(entry: ListHead, head: ListHead, t: seq<ListHead>)
    requires Distinct(head, t) && entry != head && entry !in t
    requires NextChainBut(head, t, -1) && PrevChainBut(head, t, 0)
    requires head.next == entry && entry.next == At(head, t, 0)
    requires At(head, t, 0).prev == entry && entry.prev == head
    ensures IsRing(entry, t + [head])
  {
    NextInsert(head, t, 0, entry);
    PrevInsert(head, t, 0, entry);
    WithDistinct(head, t, 0, entry);
    assert With(t, 0, entry) == [entry] + t;
    SeenFromFirst(head, [entry] + t);
  }

  /** `sys_dev_register` as it is written: the registry's head E is passed as the new entry, and the device's
      link D as the list head to add it after. If D was on a ring, with `t` behind it, the walk from E finds
      that ring, up to E itself if E was on it; if D was left over from an earlier registration, the walk
      finds nothing. */
  method SysDevRegister(manager: DeviceManager?, device: Device?, ghost t: seq<ListHead>) returns (r: int)
    requires manager != null && device != null ==> manager.devices != null && device.link.next != null
    modifies if manager != null && device != null && manager.devices != null
             then {manager.devices.link, device.link} else {}
    modifies (if device != null && device.link.next != null then {device.link.next} else {})`prev
    ensures r == if manager == null || device == null then -1 else 0
    ensures r == 0 && device.link == manager.devices.link ==> IsRing(manager.devices.link, [])
    ensures r == 0 && device.link != manager.devices.link ==> device.link.next == manager.devices.link
    ensures r == 0 && manager.devices.link !in [device.link] + t && old(IsRing(device.link, t)) ==>
      IsRing(manager.devices.link, t + [device.link])
    ensures r == 0 && device.link != manager.devices.link && old(IsRing(device.link, t)) ==>
      forall k :: 0 <= k < |t| && t[k] == manager.devices.link ==> Walk(t[k], t[..k])
    ensures r == 0 && device.link != manager.devices.link && old(device.link.next) == manager.devices.link ==>
      Walk(manager.devices.link, [])
  {
    if manager == null || device == null {
      return -1;
    }
    var entry, head := manager.devices.link, device.link;
    // list_add(entry, head)
    var next: ListHead := head.next;
    next.prev := entry;
    entry.next := next;
    entry.prev := head;
    head.next := entry;
    if head != entry && old(IsRing(head, t)) && entry !in t {
      Joined(entry, head, t);
    }
    return 0;
  }

  /** Registration with the arguments in the order that `list_add` documents: (new, head). */
  method RegisterDocumented(manager: DeviceManager, device: Device, ghost s: seq<ListHead>)
    requires manager.devices != null && IsRing(manager.devices.link, s)
    requires device.link != manager.devices.link && device.link !in s
    modifies device.link, manager.devices.link, s
    ensures IsRing(manager.devices.link, [device.link] + s)
  {
    ListAdd(device.link, manager.devices.link, s);
  }

  ghost function Links(devices: seq<Device>): (r: seq<ListHead>)
    ensures |r| == |devices| && forall i :: 0 <= i < |r| ==> r[i] == devices[i].link
  {
    seq(|devices|, i requires 0 <= i < |devices| => devices[i].link)
  }

  ghost function Backwards(s: seq<ListHead>): (r: seq<ListHead>)
    ensures |r| == |s| && forall i :: 0 <= i < |s| ==> r[i] == s[|s| - 1 - i]
  {
    seq(|s|, i requires 0 <= i < |s| => s[|s| - 1 - i])
  }

  // ----- whole runs -----

  /** What the walk finds after `links` were registered in turn: the latest, unless it was registered before
      or is the registry's own head. */
  ghost function WalkAfter(head: ListHead, links: seq<ListHead>): seq<ListHead> {
    if links == [] then []
    else
      var last := links[|links| - 1];
      if last == head || last in links[..|links| - 1] then [] else [last]
  }

  /** All registered devices are on the walk exactly when at most one was registered, and not the head itself. */
  lemma AllOnWalk(head: ListHead, links: seq<ListHead>)
    ensures (forall x :: x in links ==> x in WalkAfter(head, links))
       <==> links == [] || (|links| == 1 && links[0] != head)
  {
    if links != [] {
      var n := |links| - 1;
      assert links[n] in links && links[0] in links;
      if n > 0 && links[n] !in links[..n] {
        assert links[0] == links[..n][0];
      }
    }
  }

  /** The walk finds `w`, and an entry that it finds is properly linked. */
  ghost predicate Found(head: ListHead, w: seq<ListHead>)
    reads head, w
  {
    Walk(head, w) && (w != [] ==> IsRing(head, w))
  }

  /** The links in `done` have been registered and point to the head, the others in `all` to themselves, and
      the walk finds `w`. */
  ghost predicate HalfDone(head: ListHead, all: set<ListHead>, done: set<ListHead>, w: seq<ListHead>)
    reads head, w, all, done
  {
    && Found(head, w) && done <= all && (forall x :: x in w ==> x in done)
    && (forall x :: x in done && x != head ==> x.next == head)
    && forall x :: x in all && x !in done && x != head ==> IsRing(x, [])
  }

  /** What the walk finds after `x` was registered. */
  ghost function WalkWith(head: ListHead, done: set<ListHead>, x: ListHead): seq<ListHead> {
    if x == head || x in done then [] else [x]
  }

  /** Devices that point to themselves are registered in turn, any of them any number of times, the head's own
      device included: afterwards the walk from the head finds exactly the latest one if it is new, and
      otherwise nothing. */
  method RegisterAll(manager: DeviceManager, devices: seq<Device>)
    requires manager.devices != null && IsRing(manager.devices.link, [])
    requires forall i :: 0 <= i < |devices| ==> IsRing(devices[i].link, [])
    modifies manager.devices.link, Links(devices)
    ensures Found(manager.devices.link, WalkAfter(manager.devices.link, Links(devices)))
    ensures devices != [] ==>
      var head, last := manager.devices.link, devices[|devices| - 1].link;
      if last == head || exists i :: 0 <= i < |devices| - 1 && devices[i].link == last
      then ListEmpty(head) else IsRing(head, [last])
  {
    ghost var links, head := Links(devices), manager.devices.link;
    ghost var all := Members(links);
    for n := 0 to |devices|
      invariant HalfDone(head, all, Members(links[..n]), WalkAfter(head, links[..n]))
    {
      RegisterNext(manager, devices[n], all, Members(links[..n]), WalkAfter(head, links[..n]));
      NextLink(head, links, n);
    }
    assert links[..|devices|] == links;
    if links != [] {
      LatestOnly(head, links);
    }
  }

  lemma LatestOnly(head: ListHead, links: seq<ListHead>)
    requires links != []
    ensures var last := links[|links| - 1];
      WalkAfter(head, links) ==
        if last == head || exists i :: 0 <= i < |links| - 1 && links[i] == last then [] else [last]
  {
    var front := links[..|links| - 1];
    assert forall i :: 0 <= i < |front| ==> front[i] == links[i];
  }

  method RegisterNext(manager: DeviceManager, device: Device,
                      ghost all: set<ListHead>, ghost done: set<ListHead>, ghost w: seq<ListHead>)
    requires manager.devices != null && device.link in all
    requires HalfDone(manager.devices.link, all, done, w)
    modifies manager.devices.link, all
    ensures HalfDone(manager.devices.link, all, done + {device.link},
                     WalkWith(manager.devices.link, done, device.link))
  {
    assert w != [] ==> w[0] in w;
    var r := SysDevRegister(manager, device, []);
  }

  lemma NextLink(head: ListHead, links: seq<ListHead>, n: nat)
    requires n < |links|
    ensures Members(links[..n + 1]) == Members(links[..n]) + {links[n]}
    ensures WalkAfter(head, links[..n + 1]) == WalkWith(head, Members(links[..n]), links[n])
  {
    assert links[..n + 1] == links[..n] + [links[n]];
    assert links[..n + 1][..n] == links[..n];
  }

  /** Distinct devices, none of them the registry's own head. */
  ghost predicate Fresh(manager: DeviceManager, devices: seq<Device>)
    reads manager
  {
    && manager.devices != null
    && (forall i :: 0 <= i < |devices| ==> devices[i].link != manager.devices.link)
    && forall i, j :: 0 <= i < j < |devices| ==> devices[i].link != devices[j].link
  }

  /** In the documented order, all of them stay linked, the latest first. */
  method RegisterAllDocumented(manager: DeviceManager, devices: seq<Device>)
    requires Fresh(manager, devices) && IsRing(manager.devices.link, [])
    modifies manager.devices.link, Links(devices)
    ensures IsRing(manager.devices.link, Backwards(Links(devices)))
  {
    assert Backwards(Links(devices)[..0]) == [];
    for n := 0 to |devices|
      invariant IsRing(manager.devices.link, Backwards(Links(devices)[..n]))
    {
      var links := Links(devices);
      assert devices[n].link == links[n];
      assert Backwards(links[..n + 1]) == [links[n]] + Backwards(links[..n]);
      RegisterDocumented(manager, devices[n], Backwards(links[..n]));
    }
    assert Links(devices)[..|devices|] == Links(devices);
  }
}
