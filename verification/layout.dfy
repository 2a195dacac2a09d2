/** The packed data format handed to DirectInput: four little-endian bytes for each axis,
    then one byte for each button (setInputDataFormat, poll and reconcile). */
module PackedLayout {
  import opened ControllerTypes

  const DIDFT_ABS_AXIS := 0x2
  const DIDFT_BUTTON := 0xc

  const GUID_BUTTON := "{A36D02F0-C9F3-11CF-BFC7-444553540000}"

  /** What the axis table says of an axis. */
  datatype AxisInfo = AxisInfo(instance: uint16, name: string, guid: string)

  /** `objectType` holds the object's kind in its low byte and its instance above. */
  datatype ObjectFormat = ObjectFormat(guid: string, offset: nat, objectType: nat)

  function AxisFormat(index: nat, axis: AxisInfo): ObjectFormat {
    ObjectFormat(axis.guid, index * 4, DIDFT_ABS_AXIS + axis.instance * 0x100)
  }

  function ButtonFormat(axes: nat, index: nat, button: uint8): ObjectFormat {
    ObjectFormat(GUID_BUTTON, axes * 4 + index, DIDFT_BUTTON + button * 0x100)
  }

  /** The instance a DirectInput object type carries: (objectType >> 8) & 0xffff. */
  function Instance(objectType: uint32): uint16 {
    (objectType / 0x100) % 0x1_0000
  }

  method SetInputDataFormat(axes: seq<AxisInfo>, buttons: seq<uint8>)
    returns (formats: seq<ObjectFormat>, dataSize: nat)
    ensures |formats| == |axes| + |buttons|
    ensures forall i | 0 <= i < |axes| ::
              formats[i] == ObjectFormat(axes[i].guid, i * 4, 0x2 + axes[i].instance * 0x100)
    ensures forall j | 0 <= j < |buttons| ::
              formats[|axes| + j]
              == ObjectFormat("{A36D02F0-C9F3-11CF-BFC7-444553540000}", |axes| * 4 + j,
                              0xc + (buttons[j] as int) * 0x100)
    ensures dataSize == |axes| * 4 + |buttons|
  {
    formats := [];
    for i := 0 to |axes|
      invariant |formats| == i
      invariant forall k | 0 <= k < i :: formats[k] == AxisFormat(k, axes[k])
    {
      formats := formats + [AxisFormat(i, axes[i])];
    }
    for j := 0 to |buttons|
      invariant |formats| == |axes| + j
      invariant forall k | 0 <= k < |axes| :: formats[k] == AxisFormat(k, axes[k])
      invariant forall k | 0 <= k < j :: formats[|axes| + k] == ButtonFormat(|axes|, k, buttons[k])
    {
      formats := formats + [ButtonFormat(|axes|, j, buttons[j])];
    }
    dataSize := |axes| * 4 + |buttons|;
  }

  function DataSize(axes: nat, buttons: nat): nat {
    axes * 4 + buttons
  }

  datatype Item = AxisItem(axis: nat) | ButtonItem(button: nat) | NoItem

  /** How poll reads the offset of a buffered record, in uint32 arithmetic: the subtraction
      wraps when the offset lies below the button area. */
  function DecodeOffset(offset: uint32, axes: nat, buttons: nat): Item {
    var axisBytes := (axes * 4) % 0x1_0000_0000;
    if offset < axisBytes && offset % 4 == 0 then AxisItem(offset / 4)
    else
      var buttonOffset := (offset - axisBytes) % 0x1_0000_0000;
      if buttonOffset >= buttons then NoItem else ButtonItem(buttonOffset)
  }

  /** Decoding inverts the layout: an assigned offset gives back exactly its object, and every
      other uint32, misaligned ones included, gives nothing. */
  lemma OffsetBijection(offset: uint32, axes: nat, buttons: nat)
    requires axes <= MAX_AXES && buttons <= MAX_BUTTONS
    ensures forall i: nat :: DecodeOffset(offset, axes, buttons) == AxisItem(i) <==> i < axes && offset == i * 4
    ensures forall j: nat ::
              DecodeOffset(offset, axes, buttons) == ButtonItem(j) <==> j < buttons && offset == axes * 4 + j
  {
    if offset < axes * 4 {
      assert (offset - axes * 4) % 0x1_0000_0000 == offset - axes * 4 + 0x1_0000_0000;
    }
  }

  /** The instance of an object type, whatever its kind and its flags are. */
  lemma InstanceReads(kind: nat, instance: uint16, flags: nat)
    requires kind < 0x100 && flags < 0x100
    ensures Instance(flags * 0x100_0000 + instance * 0x100 + kind) == instance
  {
    assert (flags * 0x100_0000 + instance * 0x100 + kind) / 0x100 == flags * 0x1_0000 + instance;
  }

  /** Every object of the format is found again: a record at its offset is read as that very
      object, and its type names the very instance. */
  lemma FormatsAreDecoded(axes: seq<AxisInfo>, buttons: seq<uint8>)
    requires |axes| <= MAX_AXES && |buttons| <= MAX_BUTTONS
    ensures forall i | 0 <= i < |axes| ::
              var format := AxisFormat(i, axes[i]);
              && format.offset < DataSize(|axes|, |buttons|)
              && DecodeOffset(format.offset, |axes|, |buttons|) == AxisItem(i)
              && Instance(format.objectType) == axes[i].instance
    ensures forall j | 0 <= j < |buttons| ::
              var format := ButtonFormat(|axes|, j, buttons[j]);
              && format.offset < DataSize(|axes|, |buttons|)
              && DecodeOffset(format.offset, |axes|, |buttons|) == ButtonItem(j)
              && Instance(format.objectType) == buttons[j]
  {
    forall i | 0 <= i < |axes|
      ensures DecodeOffset(AxisFormat(i, axes[i]).offset, |axes|, |buttons|) == AxisItem(i)
      ensures Instance(AxisFormat(i, axes[i]).objectType) == axes[i].instance
    {
      OffsetBijection(i * 4, |axes|, |buttons|);
      InstanceReads(0x2, axes[i].instance, 0);
    }
    forall j | 0 <= j < |buttons|
      ensures DecodeOffset(ButtonFormat(|axes|, j, buttons[j]).offset, |axes|, |buttons|) == ButtonItem(j)
      ensures Instance(ButtonFormat(|axes|, j, buttons[j]).objectType) == buttons[j]
    {
      OffsetBijection(|axes| * 4 + j, |axes|, |buttons|);
      InstanceReads(0xc, buttons[j], 0);
    }
  }

  predicate Covers(item: Item, axes: nat, position: nat) {
    match item
    case AxisItem(i) => i * 4 <= position < i * 4 + 4
    case ButtonItem(j) => position == axes * 4 + j
    case NoItem => false
  }

  predicate IsItem(item: Item, axes: nat, buttons: nat) {
    match item
    case AxisItem(i) => i < axes
    case ButtonItem(j) => j < buttons
    case NoItem => false
  }

  function ItemAt(position: nat, axes: nat): Item {
    if position < axes * 4 then AxisItem(position / 4) else ButtonItem(position - axes * 4)
  }

  /** The objects' bytes are disjoint and fill the data buffer: a byte inside it belongs to
      exactly one object, a byte outside to none. */
  lemma LayoutPartition(position: nat, axes: nat, buttons: nat)
    ensures position < DataSize(axes, buttons)
        <==> exists item :: IsItem(item, axes, buttons) && Covers(item, axes, position)
    ensures forall a, b | IsItem(a, axes, buttons) && IsItem(b, axes, buttons)
                          && Covers(a, axes, position) && Covers(b, axes, position) :: a == b
  {
    if position < DataSize(axes, buttons) {
      assert IsItem(ItemAt(position, axes), axes, buttons) && Covers(ItemAt(position, axes), axes, position);
    }
  }

  // ---- Bytes ----

  /** Byte k of a value in little-endian order. */
  function LittleEndianByte(value: uint32, k: nat): uint8
    requires k < 4
  {
    if k == 0 then value % 0x100
    else if k == 1 then (value / 0x100) % 0x100
    else if k == 2 then (value / 0x100 / 0x100) % 0x100
    else value / 0x100 / 0x100 / 0x100
  }

  function Uint32(b0: uint8, b1: uint8, b2: uint8, b3: uint8): uint32 {
    b0 + b1 * 0x100 + b2 * 0x1_0000 + b3 * 0x100_0000
  }

  lemma LittleEndianRoundTrip(value: uint32)
    ensures Uint32(LittleEndianByte(value, 0), LittleEndianByte(value, 1),
                   LittleEndianByte(value, 2), LittleEndianByte(value, 3)) == value
    ensures Uint32(0x01, 0x02, 0x03, 0x04) == 0x0403_0201
  {
    var upper := value / 0x100;
    var top := upper / 0x100;
    assert value == upper * 0x100 + value % 0x100;
    assert upper == top * 0x100 + upper % 0x100;
    assert top == top / 0x100 * 0x100 + top % 0x100;
  }

  /** value & 0x80 != 0 */
  predicate HighBit(value: uint32) {
    value % 0x100 >= 0x80
  }

  /** Bit 7 of the value, its other bits away. */
  lemma HighBitIsBitSeven(value: uint32)
    ensures HighBit(value) <==> (value / 0x80) % 2 == 1
  {
    assert value == value / 0x100 * 0x100 + value % 0x100;
    assert value / 0x80 == value / 0x100 * 2 + value % 0x100 / 0x80;
  }

  /** The data buffer of a device whose objects have these values. */
  function StateBytes(axes: seq<uint32>, buttons: seq<uint8>): (bytes: seq<uint8>)
    ensures |bytes| == DataSize(|axes|, |buttons|)
  {
    seq(DataSize(|axes|, |buttons|), k requires 0 <= k < DataSize(|axes|, |buttons|) =>
      if k < |axes| * 4 then LittleEndianByte(axes[k / 4], k % 4) else buttons[k - |axes| * 4])
  }

  /** The value reconcile reads for axis i. */
  function RawAt(bytes: seq<uint8>, i: nat): uint32
    requires i * 4 + 4 <= |bytes|
  {
    Uint32(bytes[i * 4], bytes[i * 4 + 1], bytes[i * 4 + 2], bytes[i * 4 + 3])
  }

  lemma AxisBytes(axes: seq<uint32>, buttons: seq<uint8>, i: nat, k: nat)
    requires i < |axes| && k < 4
    ensures StateBytes(axes, buttons)[i * 4 + k] == LittleEndianByte(axes[i], k)
  {
    assert (i * 4 + k) / 4 == i && (i * 4 + k) % 4 == k;
  }

  lemma ReadBackAxis(axes: seq<uint32>, buttons: seq<uint8>, i: nat)
    requires i < |axes|
    ensures RawAt(StateBytes(axes, buttons), i) == axes[i]
  {
    AxisBytes(axes, buttons, i, 0);
    AxisBytes(axes, buttons, i, 1);
    AxisBytes(axes, buttons, i, 2);
    AxisBytes(axes, buttons, i, 3);
    LittleEndianRoundTrip(axes[i]);
  }

  /** Reading the bytes of an object out of the buffer gives the object's value. */
  lemma ReadBack(axes: seq<uint32>, buttons: seq<uint8>)
    ensures var bytes := StateBytes(axes, buttons);
            && (forall i | 0 <= i < |axes| :: RawAt(bytes, i) == axes[i])
            && bytes[|axes| * 4..] == buttons
  {
    forall i | 0 <= i < |axes|
      ensures RawAt(StateBytes(axes, buttons), i) == axes[i]
    {
      ReadBackAxis(axes, buttons, i);
    }
  }
}
