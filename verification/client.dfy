/** The client interface's value types: the transport choice, the adapter and
    connection states, devices, services and characteristics, and the code
    lookups that turn Android's integer codes into them. */
module Client {
  import opened Kotlin
  import Bits

  datatype ClientType = ClassicTransport | BleTransport

  /** Adapter readiness as reported by the helper's state check. */
  datatype ClientState = NotSupport | NoPermissions | LocationDisable | Enable | Disable

  /** The states a connection attempt reports to its state callback. */
  datatype ConnectState =
    | Connecting
    | ConnectTimeout
    | Connected
    | ConnectError
    | Disconnected
    | Reconnect

  /** A code lookup as the source writes it: walk `entries` in declaration
      order and return the first whose code is `value`, else `fallback`. */
  function FirstWithCode<T>(entries: seq<T>, code: T -> int32, value: int32, fallback: T): (r: T)
    ensures r in entries || r == fallback
    ensures (exists i :: 0 <= i < |entries| && code(entries[i]) == value) ==> code(r) == value
    ensures (forall i :: 0 <= i < |entries| ==> code(entries[i]) != value) ==> r == fallback
  {
    if |entries| == 0 then fallback
    else if code(entries[0]) == value then entries[0]
    else
      assert forall i :: 1 <= i < |entries| ==> entries[i] == entries[1..][i - 1];
      FirstWithCode(entries[1..], code, value, fallback)
  }

  // ----- Device ---------------------------------------------------------------

  datatype DeviceType = ClassicDevice | BleDevice | DualDevice | UnknownDevice

  const DeviceTypes: seq<DeviceType> := [ClassicDevice, BleDevice, DualDevice, UnknownDevice]

  function DeviceTypeCode(t: DeviceType): int32
  {
    match t
    case ClassicDevice => 1
    case BleDevice => 2
    case DualDevice => 3
    case UnknownDevice => -1
  }

  /** `Device.typeOf`: Android's `BluetoothDevice.getType()` code to a type.
      The source declares it private, yet the drivers call it from outside
      (and with a three-argument `Device` constructor the data class does not
      have), so that part of the source does not compile as written; the
      model keeps the lookup itself. */
  function DeviceTypeOf(value: int32): (t: DeviceType)
    ensures t == ClassicDevice <==> value == 1
    ensures t == BleDevice <==> value == 2
    ensures t == DualDevice <==> value == 3
    ensures t == UnknownDevice <==> value != 1 && value != 2 && value != 3
  {
    assert DeviceTypeCode(DeviceTypes[0]) == 1 && DeviceTypeCode(DeviceTypes[1]) == 2;
    assert DeviceTypeCode(DeviceTypes[2]) == 3 && DeviceTypeCode(DeviceTypes[3]) == -1;
    FirstWithCode(DeviceTypes, DeviceTypeCode, value, UnknownDevice)
  }

  /** A `Device` is a Kotlin data class: its equality compares all four fields. */
  datatype Device = Device(address: string, name: Option<string>, deviceType: DeviceType, bonded: bool)

  // ----- Service --------------------------------------------------------------

  datatype ServiceType = Primary | Secondary | UnknownService

  const ServiceTypes: seq<ServiceType> := [Primary, Secondary, UnknownService]

  function ServiceTypeCode(t: ServiceType): int32
  {
    match t
    case Primary => 0
    case Secondary => 1
    case UnknownService => -1
  }

  /** `Service.typeOf`: a GATT service type code to a service type. */
  function ServiceTypeOf(value: int32): (t: ServiceType)
    ensures t == Primary <==> value == 0
    ensures t == Secondary <==> value == 1
    ensures t == UnknownService <==> value != 0 && value != 1
  {
    assert ServiceTypeCode(ServiceTypes[0]) == 0 && ServiceTypeCode(ServiceTypes[1]) == 1;
    assert ServiceTypeCode(ServiceTypes[2]) == -1;
    FirstWithCode(ServiceTypes, ServiceTypeCode, value, UnknownService)
  }

  datatype Characteristic = Characteristic(uuid: Uuid, properties: seq<Property>, permissions: int32)

  datatype Service = Service(
    uuid: Uuid,
    serviceType: ServiceType,
    characteristics: Option<seq<Characteristic>>,
    included: Option<seq<Service>>)

  // ----- Characteristic properties ---------------------------------------------

  /** `Characteristic.Property`, in the source's declaration order. */
  datatype Property =
    | Broadcast
    | ExtendedProps
    | Indicate
    | Notify
    | Read
    | SignedWrite
    | Write
    | WriteNoResponse
    | UnknownProperty

  const Properties: seq<Property> :=
    [Broadcast, ExtendedProps, Indicate, Notify, Read, SignedWrite, Write, WriteNoResponse, UnknownProperty]

  function PropertyCode(p: Property): int32
  {
    match p
    case Broadcast => 1
    case ExtendedProps => 128
    case Indicate => 32
    case Notify => 16
    case Read => 2
    case SignedWrite => 64
    case Write => 8
    case WriteNoResponse => 4
    case UnknownProperty => -1
  }

  /** Position of a property in declaration order. */
  function Ordinal(p: Property): nat
  {
    match p
    case Broadcast => 0
    case ExtendedProps => 1
    case Indicate => 2
    case Notify => 3
    case Read => 4
    case SignedWrite => 5
    case Write => 6
    case WriteNoResponse => 7
    case UnknownProperty => 8
  }

  /** The bit a defined property occupies in the Characteristic Properties
      field (Bluetooth Core Specification v5.3, Vol 3, Part G, section 3.3.1.1). */
  function PropertyBit(p: Property): nat
    requires p != UnknownProperty
  {
    match p
    case Broadcast => 0
    case Read => 1
    case WriteNoResponse => 2
    case Write => 3
    case Notify => 4
    case Indicate => 5
    case SignedWrite => 6
    case ExtendedProps => 7
  }

  /** Kotlin's `(value and mask) == mask` on 32-bit `Int`s. */
  predicate HasMask(value: int32, mask: int32)
  {
    Bits.Covers(value as int, mask as int, 32)
  }

  predicate Ascending(ps: seq<Property>)
  {
    forall i, j :: 0 <= i < j < |ps| ==> Ordinal(ps[i]) < Ordinal(ps[j])
  }

  /** An ascending list is its head, below everything else, followed by an
      ascending tail. */
  lemma AscendingCons(x: Property, ps: seq<Property>)
    ensures Ascending([x] + ps) <==> Ascending(ps) && forall p :: p in ps ==> Ordinal(x) < Ordinal(p)
  {
    if Ascending(ps) && forall p :: p in ps ==> Ordinal(x) < Ordinal(p) {
      AscendingConsBuild(x, ps);
    }
    if Ascending([x] + ps) {
      AscendingConsSplit(x, ps);
    }
  }

  lemma AscendingConsBuild(x: Property, ps: seq<Property>)
    requires Ascending(ps) && forall p :: p in ps ==> Ordinal(x) < Ordinal(p)
    ensures Ascending([x] + ps)
  {
    var l := [x] + ps;
    forall i, j | 0 <= i < j < |l| ensures Ordinal(l[i]) < Ordinal(l[j]) {
      assert l[j] == ps[j - 1];
      if i > 0 {
        assert l[i] == ps[i - 1];
      }
    }
  }

  lemma AscendingConsSplit(x: Property, ps: seq<Property>)
    requires Ascending([x] + ps)
    ensures Ascending(ps) && forall p :: p in ps ==> Ordinal(x) < Ordinal(p)
  {
    var l := [x] + ps;
    forall p | p in ps ensures Ordinal(x) < Ordinal(p) {
      var k :| 0 <= k < |ps| && ps[k] == p;
      assert l[0] == x && l[k + 1] == p;
    }
    forall i, j | 0 <= i < j < |ps| ensures Ordinal(ps[i]) < Ordinal(ps[j]) {
      assert l[i + 1] == ps[i] && l[j + 1] == ps[j];
    }
  }

  /** `entries.filter { (value and it.value) == it.value }`. */
  function FilterByMask(entries: seq<Property>, value: int32): (r: seq<Property>)
    ensures forall p :: p in r <==> p in entries && HasMask(value, PropertyCode(p))
    ensures Ascending(entries) ==> Ascending(r)
  {
    if |entries| == 0 then []
    else
      var rest := FilterByMask(entries[1..], value);
      assert forall p :: p in entries <==> p == entries[0] || p in entries[1..];
      assert entries == [entries[0]] + entries[1..];
      AscendingCons(entries[0], entries[1..]);
      AscendingCons(entries[0], rest);
      if HasMask(value, PropertyCode(entries[0])) then [entries[0]] + rest else rest
  }

  /** Each defined property's code is the weight of its bit. */
  lemma CodeIsWeight(p: Property)
    requires p != UnknownProperty
    ensures PropertyCode(p) as int == Bits.Pow2(PropertyBit(p))
  {
    Bits.Pow2Byte();
  }

  /** How each property's mask test reads in terms of the value's bits. */
  lemma PropertyMasks(value: int32)
    ensures forall p :: p != UnknownProperty ==>
      (HasMask(value, PropertyCode(p)) <==> Bits.Bit(value as int, PropertyBit(p)))
    ensures HasMask(value, -1) <==> value == -1
  {
    forall p | p != UnknownProperty
      ensures HasMask(value, PropertyCode(p)) <==> Bits.Bit(value as int, PropertyBit(p))
    {
      CodeIsWeight(p);
      Bits.CoversSingleBit(value as int, PropertyBit(p), 32);
    }
    Bits.Pow2Of31();
    Bits.CoversAllOnes(value as int, 32);
  }

  /** `entries` lists every property once, in declaration order. */
  lemma PropertiesInOrder()
    ensures Ascending(Properties)
    ensures forall p :: p in Properties
  {
    forall i | 0 <= i < |Properties| ensures Ordinal(Properties[i]) == i { }
    forall p ensures p in Properties { assert Properties[Ordinal(p)] == p; }
  }

  /** `Characteristic.getProperties`: the properties whose bits are set in the
      Characteristic Properties field, in declaration order.  UNKNOWN's code
      is -1, every bit set, so it is listed only for -1. */
  function GetProperties(value: int32): (r: seq<Property>)
    ensures forall p :: p != UnknownProperty ==> (p in r <==> Bits.Bit(value as int, PropertyBit(p)))
    ensures UnknownProperty in r <==> value == -1
    ensures Ascending(r)
  {
    PropertyMasks(value);
    PropertiesInOrder();
    FilterByMask(Properties, value)
  }

  // ----- Properties of the lookups ---------------------------------------------

  /** Each device type's own code maps back to it. */
  lemma DeviceTypeRoundTrip(t: DeviceType)
    ensures DeviceTypeOf(DeviceTypeCode(t)) == t
  {
  }

  /** Each service type's own code maps back to it. */
  lemma ServiceTypeRoundTrip(t: ServiceType)
    ensures ServiceTypeOf(ServiceTypeCode(t)) == t
  {
  }

  /** Two devices with one address are still different devices when any other
      field differs: equality is not by address alone. */
  lemma DeviceEqualityIsStructural(d: Device, e: Device)
    ensures d == e <==> d.address == e.address && d.name == e.name
                        && d.deviceType == e.deviceType && d.bonded == e.bonded
    ensures d.address == e.address && d.bonded != e.bonded ==> d != e
  {
  }

  function SumOfCodes(ps: seq<Property>): int
  {
    if |ps| == 0 then 0 else PropertyCode(ps[0]) as int + SumOfCodes(ps[1..])
  }

  /** Sum of the codes the filter keeps, written entry by entry. */
  function MaskedSum(entries: seq<Property>, value: int32): int
  {
    if |entries| == 0 then 0
    else (if HasMask(value, PropertyCode(entries[0])) then PropertyCode(entries[0]) as int else 0)
         + MaskedSum(entries[1..], value)
  }

  lemma {:induction false} SumOfFilter(entries: seq<Property>, value: int32)
    ensures SumOfCodes(FilterByMask(entries, value)) == MaskedSum(entries, value)
  {
    if |entries| > 0 {
      SumOfFilter(entries[1..], value);
      var rest := FilterByMask(entries[1..], value);
      if HasMask(value, PropertyCode(entries[0])) {
        assert ([entries[0]] + rest)[1..] == rest;
      }
    }
  }

  /** Weight of bit `k` of `v` when it is set, else 0. */
  function BitWeight(v: int, k: nat): int
  {
    if Bits.Bit(v, k) then Bits.Pow2(k) else 0
  }

  /** The filter's sum over the nine properties, bit by bit. */
  lemma MaskedSumOfProperties(value: int32)
    requires value != -1
    ensures MaskedSum(Properties, value)
      == BitWeight(value as int, 0) + BitWeight(value as int, 7) + BitWeight(value as int, 5)
       + BitWeight(value as int, 4) + BitWeight(value as int, 1) + BitWeight(value as int, 6)
       + BitWeight(value as int, 3) + BitWeight(value as int, 2)
  {
    PropertyMasks(value);
    var v := value as int;
    var t1 := [ExtendedProps, Indicate, Notify, Read, SignedWrite, Write, WriteNoResponse, UnknownProperty];
    var t2 := [Indicate, Notify, Read, SignedWrite, Write, WriteNoResponse, UnknownProperty];
    var t3 := [Notify, Read, SignedWrite, Write, WriteNoResponse, UnknownProperty];
    var t4 := [Read, SignedWrite, Write, WriteNoResponse, UnknownProperty];
    var t5 := [SignedWrite, Write, WriteNoResponse, UnknownProperty];
    var t6 := [Write, WriteNoResponse, UnknownProperty];
    var t7 := [WriteNoResponse, UnknownProperty];
    var t8 := [UnknownProperty];
    assert MaskedSum(t8, value) == 0 by { assert t8[1..] == []; }
    assert MaskedSum(t7, value) == BitWeight(v, 2) by { assert t7[1..] == t8; }
    assert MaskedSum(t6, value) == BitWeight(v, 3) + MaskedSum(t7, value) by { assert t6[1..] == t7; }
    assert MaskedSum(t5, value) == BitWeight(v, 6) + MaskedSum(t6, value) by { assert t5[1..] == t6; }
    assert MaskedSum(t4, value) == BitWeight(v, 1) + MaskedSum(t5, value) by { assert t4[1..] == t5; }
    assert MaskedSum(t3, value) == BitWeight(v, 4) + MaskedSum(t4, value) by { assert t3[1..] == t4; }
    assert MaskedSum(t2, value) == BitWeight(v, 5) + MaskedSum(t3, value) by { assert t2[1..] == t3; }
    assert MaskedSum(t1, value) == BitWeight(v, 7) + MaskedSum(t2, value) by { assert t1[1..] == t2; }
    assert MaskedSum(Properties, value) == BitWeight(v, 0) + MaskedSum(t1, value) by {
      assert Properties[1..] == t1;
    }
  }

  lemma LowNibble(v: int)
    ensures Bits.LowBits(v, 4) == BitWeight(v, 0) + BitWeight(v, 1) + BitWeight(v, 2) + BitWeight(v, 3)
  {
    Bits.LowBitsTop(v, 0);
    Bits.LowBitsTop(v, 1);
    Bits.LowBitsTop(v, 2);
    Bits.LowBitsTop(v, 3);
  }

  lemma HighNibble(v: int)
    ensures Bits.LowBits(v, 8) == Bits.LowBits(v, 4) + BitWeight(v, 4) + BitWeight(v, 5) + BitWeight(v, 6) + BitWeight(v, 7)
  {
    Bits.LowBitsTop(v, 4);
    Bits.LowBitsTop(v, 5);
    Bits.LowBitsTop(v, 6);
    Bits.LowBitsTop(v, 7);
  }

  /** A byte is the sum of its set bits' weights. */
  lemma ByteIsSumOfBits(v: int)
    requires 0 <= v <= 255
    ensures v == BitWeight(v, 0) + BitWeight(v, 1) + BitWeight(v, 2) + BitWeight(v, 3)
               + BitWeight(v, 4) + BitWeight(v, 5) + BitWeight(v, 6) + BitWeight(v, 7)
  {
    LowNibble(v);
    HighNibble(v);
    Bits.Pow2Byte();
    Bits.LowBitsOfSmall(v, 8);
  }

  /** For a one-byte field the listed properties never include UNKNOWN and
      their codes add up to the field: the decoding loses nothing. */
  lemma GetPropertiesSumsToValue(value: int32)
    requires 0 <= value <= 255
    ensures UnknownProperty !in GetProperties(value)
    ensures SumOfCodes(GetProperties(value)) == value as int
  {
    assert GetProperties(value) == FilterByMask(Properties, value);
    SumOfFilter(Properties, value);
    MaskedSumOfProperties(value);
    ByteIsSumOfBits(value as int);
  }

  lemma {:induction false} NoBitOfZero(k: nat)
    ensures !Bits.Bit(0, k)
    decreases k
  {
    if k > 0 {
      NoBitOfZero(k - 1);
    }
  }

  lemma {:induction false} EveryBitOfMinusOne(k: nat)
    ensures Bits.Bit(-1, k)
    decreases k
  {
    if k > 0 {
      EveryBitOfMinusOne(k - 1);
    }
  }

  lemma {:induction false} FilterOfNoMatch(entries: seq<Property>, value: int32)
    requires forall p :: p in entries ==> !HasMask(value, PropertyCode(p))
    ensures FilterByMask(entries, value) == []
  {
    if |entries| > 0 {
      assert entries[0] in entries;
      FilterOfNoMatch(entries[1..], value);
    }
  }

  /** A zero field has no properties. */
  lemma GetPropertiesOfZero()
    ensures GetProperties(0) == []
  {
    PropertyMasks(0);
    forall p | p != UnknownProperty ensures !HasMask(0, PropertyCode(p)) {
      NoBitOfZero(PropertyBit(p));
    }
    FilterOfNoMatch(Properties, 0);
  }

  /** -1 (every bit set) lists every property, UNKNOWN included. */
  lemma GetPropertiesOfMinusOne()
    ensures forall p :: p in GetProperties(-1)
  {
    forall p | p != UnknownProperty ensures p in GetProperties(-1) {
      EveryBitOfMinusOne(PropertyBit(p));
    }
  }

  /** More bits never lose a property: when every bit of `a` is set in `b`
      (that is, `(b and a) == a`), each property of `a` is a property of `b`. */
  lemma GetPropertiesMonotone(a: int32, b: int32)
    requires HasMask(b, a)
    ensures forall p :: p in GetProperties(a) ==> p in GetProperties(b)
  {
    PropertyMasks(a);
    PropertyMasks(b);
    forall p | p in GetProperties(a) ensures p in GetProperties(b) {
      assert HasMask(a, PropertyCode(p));
      Bits.CoversTransitive(PropertyCode(p) as int, a as int, b as int, 32);
    }
  }
}
