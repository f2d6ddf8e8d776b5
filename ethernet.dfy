// network/ethernet: EthernetInterface follows the state and link properties of one interface;
// EthernetTrackerImpl keeps the map of present interfaces. Listeners are identified by number
// and every callback delivered to them is recorded in a log.

module EthernetInterfaces {
  import opened Wrappers

  /** EthernetManager interface states. */
  const StateAbsent: int := 0
  const StateLinkDown: int := 1
  const StateLinkUp: int := 2

  type ListenerId = nat

  datatype IpAssignment = AssignmentUnassigned | AssignmentStatic | AssignmentDhcp
  datatype ProxySettings = ProxyUnassigned | ProxyNone | ProxyStatic | ProxyPac
  /** IpConfiguration; its no-argument constructor leaves both settings unassigned. */
  datatype IpConfiguration = IpConfiguration(ipAssignment: IpAssignment, proxySettings: ProxySettings)
  const DefaultIpConfiguration: IpConfiguration := IpConfiguration(AssignmentUnassigned, ProxyUnassigned)

  /** LinkProperties, reduced to the interface name the callback compares and the addresses. */
  datatype LinkProperties = LinkProperties(interfaceName: string, linkAddresses: seq<string>)
  const DefaultLinkProperties: LinkProperties := LinkProperties("", [])

  /** List.remove(element): drops the first occurrence, if any. */
  function RemoveFirst(s: seq<ListenerId>, x: ListenerId): (r: seq<ListenerId>)
    ensures x in s ==> |r| == |s| - 1 && multiset(r) == multiset(s) - multiset{x}
    ensures x !in s ==> r == s
  {
    if s == [] then []
    else
      assert s == [s[0]] + s[1..];
      if s[0] == x then s[1..] else [s[0]] + RemoveFirst(s[1..], x)
  }

  class EthernetInterface {
    const id: string
    const hasEthernetManager: bool
    const hasConnectivityManager: bool
    var interfaceState: int
    var ipConfiguration: IpConfiguration
    var linkProperties: LinkProperties
    var interfaceListeners: seq<ListenerId>
    /** Whether this object is registered as an interface state listener / network callback. */
    var stateListenerRegistered: bool
    var networkCallbackRegistered: bool
    /** Each interfaceUpdated() call, by the listener that received it. */
    var updatesDelivered: seq<ListenerId>

    /** While anyone listens, this object listens to both managers that exist; otherwise to neither. */
    ghost predicate Valid()
      reads this
    {
      stateListenerRegistered == (hasEthernetManager && |interfaceListeners| > 0) &&
      networkCallbackRegistered == (hasConnectivityManager && |interfaceListeners| > 0)
    }

    /** A new interface is absent, with the default configuration and empty link properties. */
    constructor (id: string, hasEthernetManager: bool, hasConnectivityManager: bool)
      ensures Valid()
      ensures this.id == id && this.hasEthernetManager == hasEthernetManager
      ensures this.hasConnectivityManager == hasConnectivityManager
      ensures interfaceState == StateAbsent && ipConfiguration == DefaultIpConfiguration
      ensures linkProperties == DefaultLinkProperties
      ensures interfaceListeners == [] && updatesDelivered == []
    {
      this.id := id;
      this.hasEthernetManager := hasEthernetManager;
      this.hasConnectivityManager := hasConnectivityManager;
      interfaceState := StateAbsent;
      ipConfiguration := DefaultIpConfiguration;
      linkProperties := DefaultLinkProperties;
      interfaceListeners := [];
      stateListenerRegistered := false;
      networkCallbackRegistered := false;
      updatesDelivered := [];
    }

    /** registerListener: the first listener registers this object with both managers. */
    method RegisterListener(listener: ListenerId)
      requires Valid()
      modifies this
      ensures Valid()
      ensures interfaceListeners == old(interfaceListeners) + [listener]
      ensures old(interfaceListeners) == [] ==> stateListenerRegistered == hasEthernetManager
      ensures unchanged(this`interfaceState, this`ipConfiguration, this`linkProperties, this`updatesDelivered)
    {
      if |interfaceListeners| == 0 {
        stateListenerRegistered := hasEthernetManager;
        networkCallbackRegistered := hasConnectivityManager;
      }
      interfaceListeners := interfaceListeners + [listener];
    }

    /** unregisterListener: removing the last listener unregisters from both managers. */
    method UnregisterListener(listener: ListenerId)
      requires Valid()
      modifies this
      ensures Valid()
      ensures interfaceListeners == RemoveFirst(old(interfaceListeners), listener)
      ensures interfaceListeners == [] ==> !stateListenerRegistered && !networkCallbackRegistered
      ensures unchanged(this`interfaceState, this`ipConfiguration, this`linkProperties, this`updatesDelivered)
    {
      interfaceListeners := RemoveFirst(interfaceListeners, listener);
      if |interfaceListeners| == 0 {
        networkCallbackRegistered := false;
        stateListenerRegistered := false;
      }
    }

    /** notifyListeners: every listener, in registration order, gets interfaceUpdated(). */
    method NotifyListeners()
      modifies this`updatesDelivered
      ensures updatesDelivered == old(updatesDelivered) + interfaceListeners
    {
      var i := 0;
      while i < |interfaceListeners|
        invariant 0 <= i <= |interfaceListeners|
        invariant updatesDelivered == old(updatesDelivered) + interfaceListeners[..i]
      {
        updatesDelivered := updatesDelivered + [interfaceListeners[i]];
        i := i + 1;
      }
    }

    /**
     * onInterfaceStateChanged: a report about this interface replaces the state and the
     * configuration (the default one when none is given) and notifies; reports about other
     * interfaces change nothing.
     */
    method OnInterfaceStateChanged(reportedId: string, state: int, cfg: Option<IpConfiguration>)
      requires Valid()
      modifies this`interfaceState, this`ipConfiguration, this`updatesDelivered
      ensures Valid()
      ensures reportedId != id ==> unchanged(this)
      ensures reportedId == id ==>
        interfaceState == state &&
        ipConfiguration == (if cfg.Some? then cfg.value else DefaultIpConfiguration) &&
        updatesDelivered == old(updatesDelivered) + interfaceListeners
    {
      if reportedId == id {
        ipConfiguration := if cfg.Some? then cfg.value else DefaultIpConfiguration;
        interfaceState := state;
        NotifyListeners();
      }
    }

    /** The network callback: only link properties of this interface are taken, then notified. */
    method OnLinkPropertiesChanged(lp: LinkProperties)
      requires Valid()
      modifies this`linkProperties, this`updatesDelivered
      ensures Valid()
      ensures lp.interfaceName != id ==> unchanged(this)
      ensures lp.interfaceName == id ==>
        linkProperties == lp && updatesDelivered == old(updatesDelivered) + interfaceListeners
    {
      if lp.interfaceName == id {
        linkProperties := lp;
        NotifyListeners();
      }
    }
  }
}

module EthernetTracking {
  import opened Wrappers
  import opened EthernetInterfaces

  /** One onInterfaceListChanged call: the listener and the ids of the interfaces it was given. */
  datatype ListDelivery = ListDelivery(listener: ListenerId, interfaces: seq<string>)

  /** The same list delivered to each listener in turn. */
  function DeliverToAll(listeners: seq<ListenerId>, ids: seq<string>): (r: seq<ListDelivery>)
    ensures |r| == |listeners|
    ensures forall i :: 0 <= i < |r| ==> r[i] == ListDelivery(listeners[i], ids)
  {
    seq(|listeners|, i requires 0 <= i < |listeners| => ListDelivery(listeners[i], ids))
  }

  /** `s` without the element `x`. */
  function Erase(s: seq<string>, x: string): (r: seq<string>)
    ensures forall y :: y in r <==> y in s && y != x
    ensures |r| <= |s|
  {
    if s == [] then [] else (if s[0] == x then [] else [s[0]]) + Erase(s[1..], x)
  }

  class EthernetTracker {
    const hasEthernetManager: bool
    /** The present interfaces, by id; `order` is the map's insertion order. */
    var ethernetInterfaces: map<string, EthernetInterface>
    var order: seq<string>
    var interfaceListeners: seq<ListenerId>
    var stateListenerAttached: bool
    var delivered: seq<ListDelivery>

    ghost predicate Valid()
      reads this
    {
      Distinct(order) &&
      (forall x :: x in order <==> x in ethernetInterfaces) &&
      stateListenerAttached == (hasEthernetManager && |interfaceListeners| > 0)
    }

    constructor (hasEthernetManager: bool)
      ensures Valid() && this.hasEthernetManager == hasEthernetManager
      ensures ethernetInterfaces == map[] && interfaceListeners == [] && delivered == []
    {
      this.hasEthernetManager := hasEthernetManager;
      ethernetInterfaces := map[];
      order := [];
      interfaceListeners := [];
      stateListenerAttached := false;
      delivered := [];
    }

    /** getInterface: the tracked interface with that id, or null. */
    function GetInterface(id: string): (r: Option<EthernetInterface>)
      reads this
      ensures r.Some? <==> id in ethernetInterfaces
      ensures r.Some? ==> r.value == ethernetInterfaces[id]
    {
      if id in ethernetInterfaces then Some(ethernetInterfaces[id]) else None
    }

    /**
     * registerInterfaceListener: the first listener attaches the tracker to the EthernetManager;
     * the new listener immediately receives the current interface list.
     */
    method RegisterInterfaceListener(listener: ListenerId)
      requires Valid()
      modifies this`interfaceListeners, this`stateListenerAttached, this`delivered
      ensures Valid()
      ensures interfaceListeners == old(interfaceListeners) + [listener]
      ensures old(interfaceListeners) == [] ==> stateListenerAttached == hasEthernetManager
      ensures delivered == old(delivered) + [ListDelivery(listener, order)]
    {
      if |interfaceListeners| == 0 {
        stateListenerAttached := hasEthernetManager;
      }
      interfaceListeners := interfaceListeners + [listener];
      delivered := delivered + [ListDelivery(listener, order)];
    }

    /** unregisterInterfaceListener: removing the last listener detaches the tracker. */
    method UnregisterInterfaceListener(listener: ListenerId)
      requires Valid()
      modifies this`interfaceListeners, this`stateListenerAttached
      ensures Valid()
      ensures interfaceListeners == RemoveFirst(old(interfaceListeners), listener)
      ensures interfaceListeners == [] ==> !stateListenerAttached
    {
      interfaceListeners := RemoveFirst(interfaceListeners, listener);
      if |interfaceListeners| == 0 {
        stateListenerAttached := false;
      }
    }

    /**
     * onInterfaceStateChanged: an unknown id in a present state is added, a known id reported
     * absent is removed, and only then does every listener get the new list.
     */
    method OnInterfaceStateChanged(id: string, state: int)
      requires Valid()
      modifies this`ethernetInterfaces, this`order, this`delivered
      ensures Valid()
      ensures var added := id !in old(ethernetInterfaces) && state != StateAbsent;
              var removed := id in old(ethernetInterfaces) && state == StateAbsent;
        (added ==> id in ethernetInterfaces && fresh(ethernetInterfaces[id]) && ethernetInterfaces[id].id == id &&
                   ethernetInterfaces[id].interfaceState == StateAbsent &&
                   ethernetInterfaces == old(ethernetInterfaces)[id := ethernetInterfaces[id]] &&
                   order == old(order) + [id]) &&
        (removed ==> ethernetInterfaces == old(ethernetInterfaces) - {id} && order == Erase(old(order), id)) &&
        (!added && !removed ==> ethernetInterfaces == old(ethernetInterfaces) && order == old(order)) &&
        delivered == old(delivered) + (if added || removed then DeliverToAll(interfaceListeners, order) else [])
    {
      var interfacesChanged := false;
      if id !in ethernetInterfaces && state != StateAbsent {
        var iface := new EthernetInterface(id, hasEthernetManager, true);
        ethernetInterfaces := ethernetInterfaces[id := iface];
        assert id !in order;
        order := order + [id];
        assert forall i :: 0 <= i < |order| - 1 ==> order[i] != id;
        interfacesChanged := true;
      } else if id in ethernetInterfaces && state == StateAbsent {
        ethernetInterfaces := ethernetInterfaces - {id};
        EraseKeepsDistinct(order, id);
        order := Erase(order, id);
        interfacesChanged := true;
      }
      if interfacesChanged {
        NotifyInterfaceListChanged();
      }
    }

    /** The loop over the listeners: each one gets the current list of interface ids. */
    method NotifyInterfaceListChanged()
      modifies this`delivered
      ensures delivered == old(delivered) + DeliverToAll(interfaceListeners, order)
    {
      var log := delivered;
      var i := 0;
      while i < |interfaceListeners|
        invariant 0 <= i <= |interfaceListeners|
        invariant log == old(delivered) + DeliverToAll(interfaceListeners[..i], order)
      {
        assert DeliverToAll(interfaceListeners[..i + 1], order) ==
               DeliverToAll(interfaceListeners[..i], order) + [ListDelivery(interfaceListeners[i], order)];
        log := log + [ListDelivery(interfaceListeners[i], order)];
        i := i + 1;
      }
      assert interfaceListeners[..i] == interfaceListeners;
      delivered := log;
    }
  }

  predicate Distinct(s: seq<string>)
  {
    forall i, j :: 0 <= i < j < |s| ==> s[i] != s[j]
  }

  lemma {:induction false} EraseKeepsDistinct(s: seq<string>, x: string)
    requires Distinct(s)
    ensures Distinct(Erase(s, x))
  {
    if s != [] {
      EraseKeepsDistinct(s[1..], x);
      var rest := Erase(s[1..], x);
      assert s[0] !in s[1..];
      assert s[0] !in rest;
      var head := if s[0] == x then [] else [s[0]];
      assert Erase(s, x) == head + rest;
      assert Distinct(rest);
      forall i, j | 0 <= i < j < |head + rest| ensures (head + rest)[i] != (head + rest)[j] {
        assert (head + rest)[j] == rest[j - |head|];
        if i < |head| {
          assert (head + rest)[i] == s[0];
          assert rest[j - |head|] in rest;
        } else {
          assert (head + rest)[i] == rest[i - |head|];
        }
      }
    }
  }
}
