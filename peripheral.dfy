/**
 * The GATT peripheral of ble_function.py (class `BLEFunction`): the set of
 * connected centrals, the status LED, and the radio operations it issues,
 * recorded in order as a log of effects.
 */
module Peripheral {
  import opened Wire

  const LED_ON: int := 1
  const LED_OFF: int := 0

  const IRQ_CENTRAL_CONNECT: int := 1
  const IRQ_CENTRAL_DISCONNECT: int := 2
  const IRQ_GATTS_INDICATE_DONE: int := 20

  const ADV_APPEARANCE_GENERIC_COMPUTER: int := 128
  const ADV_INTERVAL_US: int := 500000

  /** What `advertising_payload` is built from; its byte layout is not modelled. */
  datatype Payload = AdvertisingPayload(name: string, services: seq<int>, appearance: int)

  /** One call into the radio. */
  datatype Effect =
    | GattsWrite(valueHandle: int, value: seq<byte>)
    | GattsNotify(connHandle: int, valueHandle: int)
    | GattsIndicate(connHandle: int, valueHandle: int)
    | GapAdvertise(intervalUs: int, payload: Payload)

  /** How `_irq` ended: normally, or with `KeyError` from `set.remove`. */
  datatype IrqOutcome = Handled | KeyError

  /** `order` lists every element of `s` exactly once. */
  ghost predicate Enumerates(order: seq<int>, s: set<int>) {
    && (forall i, j :: 0 <= i < j < |order| ==> order[i] != order[j])
    && (forall h :: h in order <==> h in s)
  }

  /** What one pass of the `set_data` loop sends to the central `conn`. */
  function SendsTo(conn: int, valueHandle: int, notify: bool, indicate: bool): seq<Effect> {
    (if notify then [GattsNotify(conn, valueHandle)] else []) + (if indicate then [GattsIndicate(conn, valueHandle)] else [])
  }

  /** What the `set_data` loop sends when it visits the centrals in `order`. */
  function Sends(order: seq<int>, valueHandle: int, notify: bool, indicate: bool): (r: seq<Effect>)
    ensures |r| == |order| * ((if notify then 1 else 0) + (if indicate then 1 else 0))
  {
    if order == [] then []
    else Sends(order[..|order| - 1], valueHandle, notify, indicate)
         + SendsTo(order[|order| - 1], valueHandle, notify, indicate)
  }

  /** Dropping the last element of a listing lists the set without it. */
  lemma EnumeratesFront(order: seq<int>, s: set<int>)
    requires order != [] && Enumerates(order, s)
    ensures order[|order| - 1] in s
    ensures Enumerates(order[..|order| - 1], s - {order[|order| - 1]})
  {
    var last := order[|order| - 1];
    var front := order[..|order| - 1];
    assert last in order;
    forall x | x in front
      ensures x != last
    {
      var i :| 0 <= i < |front| && front[i] == x;
      assert order[i] == x;
    }
    forall x | x in s && x != last
      ensures x in front
    {
      var i :| 0 <= i < |order| && order[i] == x;
      assert i < |front| && front[i] == x;
    }
  }

  /**
   * Visiting each connected central once sends exactly one notification to
   * each when `notify` is set and none otherwise, the same for indications,
   * and nothing at all to a handle that is not connected.
   */
  lemma {:induction false} SendsCount(order: seq<int>, s: set<int>, valueHandle: int, notify: bool, indicate: bool, h: int)
    requires Enumerates(order, s)
    ensures multiset(Sends(order, valueHandle, notify, indicate))[GattsNotify(h, valueHandle)]
            == if notify && h in s then 1 else 0
    ensures multiset(Sends(order, valueHandle, notify, indicate))[GattsIndicate(h, valueHandle)]
            == if indicate && h in s then 1 else 0
  {
    if order != [] {
      var last := order[|order| - 1];
      var front := order[..|order| - 1];
      EnumeratesFront(order, s);
      SendsCount(front, s - {last}, valueHandle, notify, indicate, h);
      var tail := SendsTo(last, valueHandle, notify, indicate);
      assert multiset(Sends(order, valueHandle, notify, indicate))
          == multiset(Sends(front, valueHandle, notify, indicate)) + multiset(tail);
    }
  }

  /** Every effect the loop sends is a notification or an indication to a connected central. */
  lemma {:induction false} SendsOnlyToMembers(order: seq<int>, s: set<int>, valueHandle: int, notify: bool, indicate: bool)
    requires forall h :: h in order ==> h in s
    ensures forall e :: e in Sends(order, valueHandle, notify, indicate) ==>
              (e.GattsNotify? || e.GattsIndicate?) && e.connHandle in s && e.valueHandle == valueHandle
  {
    if order != [] {
      SendsOnlyToMembers(order[..|order| - 1], s, valueHandle, notify, indicate);
    }
  }

  /** With neither flag set the loop sends nothing. */
  lemma {:induction false} SendsNothing(order: seq<int>, valueHandle: int)
    ensures Sends(order, valueHandle, false, false) == []
  {
    if order != [] {
      SendsNothing(order[..|order| - 1], valueHandle);
    }
  }

  /** Every finite set of handles can be listed. */
  lemma {:induction false} EnumerationExists(s: set<int>)
    ensures exists order :: Enumerates(order, s)
  {
    if s == {} {
      assert Enumerates([], s);
    } else {
      if forall x :: x !in s { assert false; }
      var h :| h in s;
      EnumerationExists(s - {h});
      var rest :| Enumerates(rest, s - {h});
      assert Enumerates(rest + [h], s);
    }
  }

  class BLEFunction {
    /** `self._connections`: the handles of the connected centrals. */
    var connections: set<int>
    /** The level driven on the status LED pin. */
    var led: int
    /** `self._char_handle`, as returned by `gatts_register_services`. */
    const charHandle: int
    /** `self._payload`, built once in the constructor. */
    const payload: Payload
    /** Every radio operation issued so far, oldest first. */
    ghost var log: seq<Effect>

    /**
     * The log is `before` extended by one `set_data` call: a write of `data`
     * to the characteristic, then the sends of one pass over the connected
     * centrals, each visited once in some order.
     */
    ghost predicate Published(before: seq<Effect>, data: seq<byte>, notify: bool, indicate: bool)
      reads this
    {
      exists order :: Enumerates(order, connections)
        && log == before + [GattsWrite(charHandle, data)] + Sends(order, charHandle, notify, indicate)
    }

    /**
     * Registers the service (the stack returns `charHandle` for its one
     * characteristic), builds the advertising payload from the device name
     * and the service UUID, and starts advertising. The LED starts off, as
     * the module-level pin setup leaves it.
     */
    constructor (name: string, serviceUuid: int, charHandle: int)
      ensures connections == {} && led == LED_OFF
      ensures this.charHandle == charHandle
      ensures payload == AdvertisingPayload(name, [serviceUuid], ADV_APPEARANCE_GENERIC_COMPUTER)
      ensures log == [GapAdvertise(ADV_INTERVAL_US, payload)]
    {
      this.charHandle := charHandle;
      connections := {};
      led := LED_OFF;
      payload := AdvertisingPayload(name, [serviceUuid], ADV_APPEARANCE_GENERIC_COMPUTER);
      log := [];
      new;
      Advertise(ADV_INTERVAL_US);
    }

    /** `_advertise`: advertise the stored payload at `intervalUs`. */
    method Advertise(intervalUs: int)
      modifies this`log
      ensures log == old(log) + [GapAdvertise(intervalUs, payload)]
    {
      log := log + [GapAdvertise(intervalUs, payload)];
    }

    /**
     * `_irq`: a connect adds the central and lights the LED; a disconnect
     * removes it, advertises again whatever other centrals remain, and turns
     * the LED off; a disconnect of an unknown handle raises before anything
     * changes; an indicate-done and any other event change nothing.
     */
    method Irq(event: int, connHandle: int) returns (outcome: IrqOutcome)
      modifies this
      ensures event == IRQ_CENTRAL_CONNECT ==>
                && outcome == Handled
                && connections == old(connections) + {connHandle}
                && led == LED_ON && log == old(log)
      ensures event == IRQ_CENTRAL_DISCONNECT && connHandle in old(connections) ==>
                && outcome == Handled
                && connections == old(connections) - {connHandle}
                && led == LED_OFF && log == old(log) + [GapAdvertise(ADV_INTERVAL_US, payload)]
      ensures event == IRQ_CENTRAL_DISCONNECT && connHandle !in old(connections) ==>
                outcome == KeyError && unchanged(this)
      ensures event != IRQ_CENTRAL_CONNECT && event != IRQ_CENTRAL_DISCONNECT ==>
                outcome == Handled && unchanged(this)
    {
      outcome := Handled;
      if event == IRQ_CENTRAL_CONNECT {
        connections := connections + {connHandle};
        led := LED_ON;
      } else if event == IRQ_CENTRAL_DISCONNECT {
        if connHandle !in connections {
          return KeyError;
        }
        connections := connections - {connHandle};
        Advertise(ADV_INTERVAL_US);
        led := LED_OFF;
      } else if event == IRQ_GATTS_INDICATE_DONE {
        // The completion status is received and not acted on.
      }
    }

    /**
     * `set_data`: write `data` as the characteristic value first, then, when
     * either flag is set, visit every connected central once, notifying it
     * when `notify` is set and indicating to it when `indicate` is set.
     */
    method SetData(data: seq<byte>, notify: bool, indicate: bool)
      modifies this`log
      ensures Published(old(log), data, notify, indicate)
    {
      log := log + [GattsWrite(charHandle, data)];
      ghost var written := log;
      if notify || indicate {
        var pending := connections;
        ghost var order: seq<int> := [];
        while pending != {}
          invariant pending <= connections
          invariant Enumerates(order, connections - pending)
          invariant log == written + Sends(order, charHandle, notify, indicate)
          decreases pending
        {
          if forall x :: x !in pending { assert false; }
          var h :| h in pending;
          if notify {
            log := log + [GattsNotify(h, charHandle)];
          }
          if indicate {
            log := log + [GattsIndicate(h, charHandle)];
          }
          assert (order + [h])[..|order|] == order;
          order := order + [h];
          pending := pending - {h};
        }
        assert connections - pending == connections;
      } else {
        EnumerationExists(connections);
        ghost var order :| Enumerates(order, connections);
        SendsNothing(order, charHandle);
        assert log == written + Sends(order, charHandle, notify, indicate);
      }
    }
  }
}
