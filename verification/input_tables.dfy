/** The input tables initializeDevice builds from what DirectInput enumerates
    (directinput_windows.go:218-256, 496-548, 861-902). */
module InputTables {
  import opened ControllerTypes
  import opened PackedLayout
  import opened DeviceSpec
  import opened Sorting

  /** An enumerated axis object; its name may be empty. */
  datatype AxisObject = AxisObject(objectType: uint32, name: string, guid: string)

  function Less(): (int, int) -> bool {
    (x: int, y: int) => x < y
  }

  // ---- Buttons ----

  /** enumButtons keeps the instances below 128. */
  function ButtonInstances(objectTypes: seq<uint32>): seq<int> {
    if objectTypes == [] then []
    else
      var instance := Instance(objectTypes[|objectTypes| - 1]);
      ButtonInstances(objectTypes[..|objectTypes| - 1]) + (if instance < MAX_BUTTONS then [instance] else [])
  }

  /** The instances in the table: sorted, repetitions dropped, cut off at 128. */
  function ButtonNumbers(objectTypes: seq<uint32>): seq<int> {
    var distinct := Dedup(InsertionSort(Less(), ButtonInstances(objectTypes)));
    if |distinct| > MAX_BUTTONS then distinct[..MAX_BUTTONS] else distinct
  }

  ghost predicate Enumerated(objectTypes: seq<uint32>, instance: int) {
    exists k :: 0 <= k < |objectTypes| && Instance(objectTypes[k]) == instance
  }

  lemma {:induction false} ButtonInstancesAre(objectTypes: seq<uint32>, instance: int)
    ensures instance in ButtonInstances(objectTypes) <==> instance < MAX_BUTTONS && Enumerated(objectTypes, instance)
  {
    if objectTypes == [] {
    } else {
      var last := |objectTypes| - 1;
      ButtonInstancesAre(objectTypes[..last], instance);
      if k :| 0 <= k < |objectTypes| && Instance(objectTypes[k]) == instance {
        assert k < last ==> Instance(objectTypes[..last][k]) == instance;
      }
      if k :| 0 <= k < last && Instance(objectTypes[..last][k]) == instance {
        assert Instance(objectTypes[k]) == instance;
      }
    }
  }

  lemma {:induction false} AscendingFromZero(s: seq<int>)
    requires Ascending(s) && forall k | 0 <= k < |s| :: 0 <= s[k]
    ensures s != [] ==> |s| - 1 <= s[|s| - 1]
  {
    if |s| <= 1 {
    } else {
      AscendingFromZero(s[..|s| - 1]);
      assert s[|s| - 2] < s[|s| - 1];
    }
  }

  lemma SortIsNonDecreasing(s: seq<int>)
    ensures NonDecreasing(InsertionSort(Less(), s))
    ensures forall x :: x in InsertionSort(Less(), s) <==> x in s
  {
    SortIsSortedPermutation(Less(), s);
    forall x ensures x in InsertionSort(Less(), s) <==> x in s {
      MembersOf(InsertionSort(Less(), s), s, x);
    }
  }

  /** The button table is strictly ascending and holds exactly the enumerated instances below
      128; cutting it off at 128 never takes anything away. */
  lemma ButtonNumbersExact(objectTypes: seq<uint32>)
    ensures var numbers := ButtonNumbers(objectTypes);
            && Ascending(numbers) && |numbers| <= MAX_BUTTONS
            && numbers == Dedup(InsertionSort(Less(), ButtonInstances(objectTypes)))
            && (forall b :: b in numbers <==> b < MAX_BUTTONS && Enumerated(objectTypes, b))
  {
    var instances := ButtonInstances(objectTypes);
    var distinct := Dedup(InsertionSort(Less(), instances));
    SortIsNonDecreasing(instances);
    DedupIsSet(InsertionSort(Less(), instances));
    forall b ensures b in distinct <==> b < MAX_BUTTONS && Enumerated(objectTypes, b) {
      ButtonInstancesAre(objectTypes, b);
    }
    forall k | 0 <= k < |distinct| ensures 0 <= distinct[k] < MAX_BUTTONS {
      assert distinct[k] in distinct;
    }
    AscendingFromZero(distinct);
  }

  function AsBytes(numbers: seq<int>): (bytes: seq<uint8>)
    requires forall k | 0 <= k < |numbers| :: 0 <= numbers[k] < MAX_BUTTONS
    ensures |bytes| == |numbers| && forall k | 0 <= k < |numbers| :: bytes[k] == numbers[k]
  {
    if numbers == [] then [] else AsBytes(numbers[..|numbers| - 1]) + [numbers[|numbers| - 1]]
  }

  lemma ButtonNumbersFit(objectTypes: seq<uint32>)
    ensures forall k | 0 <= k < |ButtonNumbers(objectTypes)| :: 0 <= ButtonNumbers(objectTypes)[k] < MAX_BUTTONS
  {
    ButtonNumbersExact(objectTypes);
    forall k | 0 <= k < |ButtonNumbers(objectTypes)| ensures 0 <= ButtonNumbers(objectTypes)[k] < MAX_BUTTONS {
      assert ButtonNumbers(objectTypes)[k] in ButtonNumbers(objectTypes);
    }
  }

  function ButtonTable(objectTypes: seq<uint32>): (buttons: seq<uint8>)
    ensures |buttons| <= MAX_BUTTONS
    ensures forall j | 0 <= j < |buttons| :: buttons[j] < MAX_BUTTONS
    ensures forall i, j | 0 <= i < j < |buttons| :: buttons[i] < buttons[j]
  {
    ButtonNumbersExact(objectTypes);
    ButtonNumbersFit(objectTypes);
    AsBytes(ButtonNumbers(objectTypes))
  }

  lemma AsBytesMembers(numbers: seq<int>, b: uint8)
    requires forall k | 0 <= k < |numbers| :: 0 <= numbers[k] < MAX_BUTTONS
    ensures b in AsBytes(numbers) <==> b in numbers
  {
    var bytes := AsBytes(numbers);
    if b in bytes {
      var k :| 0 <= k < |bytes| && bytes[k] == b;
      assert numbers[k] == b;
    }
    if b in numbers {
      var k :| 0 <= k < |numbers| && numbers[k] == b;
      assert bytes[k] == b;
    }
  }

  /** The table itself: a button is in it exactly if it is below 128 and some enumerated object
      type carries its number in bits 8 to 23. */
  lemma ButtonTableExact(objectTypes: seq<uint32>, b: uint8)
    ensures b in ButtonTable(objectTypes)
       <==> b < 128 && exists k :: 0 <= k < |objectTypes| && (objectTypes[k] / 0x100) % 0x1_0000 == b
  {
    ButtonNumbersExact(objectTypes);
    ButtonNumbersFit(objectTypes);
    AsBytesMembers(ButtonNumbers(objectTypes), b);
    if k :| 0 <= k < |objectTypes| && (objectTypes[k] / 0x100) % 0x1_0000 == b {
      assert Instance(objectTypes[k]) == b;
    }
    if Enumerated(objectTypes, b) {
      var k :| 0 <= k < |objectTypes| && Instance(objectTypes[k]) == b;
      assert (objectTypes[k] / 0x100) % 0x1_0000 == b;
    }
  }

  method EnumButtons(objectTypes: seq<uint32>) returns (instances: seq<int>)
    ensures instances == ButtonInstances(objectTypes)
  {
    instances := [];
    for k := 0 to |objectTypes|
      invariant instances == ButtonInstances(objectTypes[..k])
    {
      var instance := Instance(objectTypes[k]);
      assert objectTypes[..k + 1][..k] == objectTypes[..k];
      if instance < MAX_BUTTONS {
        instances := instances + [instance];
      }
    }
    assert objectTypes[..|objectTypes|] == objectTypes;
  }

  method SortInstances(enumerated: seq<int>) returns (instances: seq<int>)
    ensures var distinct := Dedup(InsertionSort(Less(), enumerated));
            instances == if |distinct| > MAX_BUTTONS then distinct[..MAX_BUTTONS] else distinct
  {
    var buffer := new int[|enumerated|](k requires 0 <= k < |enumerated| => enumerated[k]);
    assert buffer[..] == enumerated;
    SortInPlace(buffer, Less());
    var length := UniqueInPlace(buffer);
    instances := buffer[..length];
    if |instances| > MAX_BUTTONS {
      instances := instances[..MAX_BUTTONS];
    }
  }

  method BuildButtonTable(objectTypes: seq<uint32>) returns (buttons: seq<uint8>)
    ensures buttons == ButtonTable(objectTypes)
  {
    var enumerated := EnumButtons(objectTypes);
    var instances := SortInstances(enumerated);
    assert instances == ButtonNumbers(objectTypes);
    ButtonNumbersFit(objectTypes);
    buttons := KeepButtons(instances);
  }

  /** The loop that fills the table, with its guard. */
  method KeepButtons(instances: seq<int>) returns (buttons: seq<uint8>)
    requires forall k | 0 <= k < |instances| :: 0 <= instances[k] < MAX_BUTTONS
    ensures buttons == AsBytes(instances)
  {
    buttons := [];
    for k := 0 to |instances|
      invariant |buttons| == k
      invariant forall j | 0 <= j < k :: buttons[j] == instances[j]
    {
      if instances[k] < MAX_BUTTONS {
        buttons := buttons + [instances[k]];
      }
    }
  }

  // ---- Axes ----

  function AxisInstance(axisObject: AxisObject): uint16 {
    Instance(axisObject.objectType)
  }

  function LessByInstance(): (AxisObject, AxisObject) -> bool {
    (x: AxisObject, y: AxisObject) => AxisInstance(x) < AxisInstance(y)
  }

  function Digits(n: nat): string {
    if n < 10 then [('0' as int + n) as char] else Digits(n / 10) + [('0' as int + n % 10) as char]
  }

  /** axisObjectName */
  function AxisName(axisObject: AxisObject): string {
    if axisObject.name != "" then axisObject.name else "Axis " + Digits(AxisInstance(axisObject))
  }

  /** The entry an object gets. */
  function Described(axisObject: AxisObject): AxisInfo {
    AxisInfo(AxisInstance(axisObject), AxisName(axisObject), axisObject.guid)
  }

  predicate Listed(axes: seq<AxisInfo>, instance: uint16) {
    exists k :: 0 <= k < |axes| && axes[k].instance == instance
  }

  /** The loop over the sorted objects: the first object of each instance, at most 32. */
  function PickAxes(objects: seq<AxisObject>): (axes: seq<AxisInfo>)
    ensures |axes| <= MAX_AXES
  {
    if objects == [] then []
    else
      var axisObject := objects[|objects| - 1];
      var axes := PickAxes(objects[..|objects| - 1]);
      if Listed(axes, AxisInstance(axisObject)) || |axes| >= MAX_AXES then axes
      else axes + [Described(axisObject)]
  }

  function AxisTable(objects: seq<AxisObject>): (axes: seq<AxisInfo>)
    ensures |axes| <= MAX_AXES
    ensures forall i, j | 0 <= i < j < |axes| :: axes[i].instance < axes[j].instance
  {
    var sorted := InsertionSort(LessByInstance(), objects);
    SortIsSortedPermutation(LessByInstance(), objects);
    PickedAscending(sorted);
    PickAxes(sorted)
  }

  method BuildAxisTable(enumerated: seq<AxisObject>) returns (axes: seq<AxisInfo>)
    ensures axes == AxisTable(enumerated)
  {
    var objects := new AxisObject[|enumerated|](k requires 0 <= k < |enumerated| => enumerated[k]);
    assert objects[..] == enumerated;
    SortInPlace(objects, LessByInstance());
    var seenAxes: set<uint16> := {};
    axes := [];
    assert objects[..0] == [];
    for k := 0 to objects.Length
      invariant axes == PickAxes(objects[..k])
      invariant forall instance :: instance in seenAxes <==> Listed(axes, instance)
    {
      var axisObject := objects[k];
      var instance := AxisInstance(axisObject);
      assert objects[..k + 1][..k] == objects[..k];
      if !(instance in seenAxes || |axes| >= MAX_AXES) {
        ghost var before := axes;
        seenAxes := seenAxes + {instance};
        axes := axes + [AxisInfo(instance, AxisName(axisObject), axisObject.guid)];
        assert axes[|before|].instance == instance;
        forall i ensures i in seenAxes <==> Listed(axes, i) {
          if m :| 0 <= m < |before| && before[m].instance == i {
            assert axes[m].instance == i;
          }
        }
      }
    }
    assert objects[..objects.Length] == objects[..];
  }

  // ---- What the axis table holds ----

  ghost predicate AscendingInstances(axes: seq<AxisInfo>) {
    forall i, j | 0 <= i < j < |axes| :: axes[i].instance < axes[j].instance
  }

  ghost predicate AllAtMost(axes: seq<AxisInfo>, instance: int) {
    forall i | 0 <= i < |axes| :: axes[i].instance <= instance
  }

  /** The picked axes ascend, and none is beyond the last object. */
  lemma {:induction false} PickedAscending(objects: seq<AxisObject>)
    requires Sorted(LessByInstance(), objects)
    ensures AscendingInstances(PickAxes(objects))
    ensures AllAtMost(PickAxes(objects), if objects == [] then -1 else AxisInstance(objects[|objects| - 1]))
  {
    if objects == [] {
    } else {
      var last := |objects| - 1;
      PickedAscending(objects[..last]);
      var axes, instance := PickAxes(objects[..last]), AxisInstance(objects[last]);
      assert last > 0 ==> !LessByInstance()(objects[last], objects[last - 1]);
      assert last > 0 ==> objects[..last][last - 1] == objects[last - 1];
      assert AllAtMost(axes, instance);
      if !Listed(axes, instance) {
        OneMore(axes, Described(objects[last]));
      }
    }
  }

  lemma OneMore(axes: seq<AxisInfo>, added: AxisInfo)
    requires AscendingInstances(axes) && AllAtMost(axes, added.instance) && !Listed(axes, added.instance)
    ensures AscendingInstances(axes + [added]) && AllAtMost(axes + [added], added.instance)
  {
    forall i | 0 <= i < |axes| ensures axes[i].instance < added.instance {
      assert axes[i].instance != added.instance;
    }
  }

  /** The first of the objects with an instance. */
  function FirstWith(objects: seq<AxisObject>, instance: uint16): Option<AxisObject> {
    if objects == [] then None
    else
      var first := FirstWith(objects[..|objects| - 1], instance);
      var last := objects[|objects| - 1];
      if first.Some? then first else if AxisInstance(last) == instance then Some(last) else None
  }

  function Has(instance: uint16): AxisObject -> bool {
    (axisObject: AxisObject) => AxisInstance(axisObject) == instance
  }

  lemma {:induction false} FirstIsFilterHead(objects: seq<AxisObject>, instance: uint16)
    ensures var same := Filter(Has(instance), objects);
            FirstWith(objects, instance) == if same == [] then None else Some(same[0])
  {
    if objects == [] {
    } else {
      FirstIsFilterHead(objects[..|objects| - 1], instance);
    }
  }

  /** Sorting does not change which object comes first among those of one instance: this is
      where the sort's stability matters. */
  lemma SortKeepsFirst(objects: seq<AxisObject>, instance: uint16)
    ensures FirstWith(InsertionSort(LessByInstance(), objects), instance) == FirstWith(objects, instance)
  {
    SortIsStable(LessByInstance(), Has(instance), objects);
    FirstIsFilterHead(InsertionSort(LessByInstance(), objects), instance);
    FirstIsFilterHead(objects, instance);
  }

  lemma {:induction false} FirstWithFinds(objects: seq<AxisObject>, instance: uint16)
    ensures FirstWith(objects, instance).Some?
        <==> exists k :: 0 <= k < |objects| && AxisInstance(objects[k]) == instance
  {
    if objects == [] {
    } else {
      var last := |objects| - 1;
      FirstWithFinds(objects[..last], instance);
      if k :| 0 <= k < |objects| && AxisInstance(objects[k]) == instance {
        assert k < last ==> AxisInstance(objects[..last][k]) == instance;
      }
      if k :| 0 <= k < last && AxisInstance(objects[..last][k]) == instance {
        assert AxisInstance(objects[k]) == instance;
      }
    }
  }

  lemma ListedStays(before: seq<AxisInfo>, added: AxisInfo, instance: uint16)
    ensures Listed(before + [added], instance) <==> Listed(before, instance) || added.instance == instance
  {
    var axes := before + [added];
    assert axes[|before|] == added;
    if k :| 0 <= k < |before| && before[k].instance == instance {
      assert axes[k].instance == instance;
    }
  }

  /** An instance that was met but not picked came when the table was full of smaller ones. */
  lemma {:induction false} LeftOutIsLarger(objects: seq<AxisObject>, instance: uint16)
    requires Sorted(LessByInstance(), objects)
    requires FirstWith(objects, instance).Some? && !Listed(PickAxes(objects), instance)
    ensures var axes := PickAxes(objects);
            |axes| == MAX_AXES && forall i | 0 <= i < |axes| :: axes[i].instance < instance
  {
    var last := |objects| - 1;
    var front, before := objects[..last], PickAxes(objects[..last]);
    var added := Described(objects[last]);
    ListedStays(before, added, instance);
    if FirstWith(front, instance).Some? {
      LeftOutIsLarger(front, instance);
    } else {
      PickedAscending(objects);
      forall i | 0 <= i < |before| ensures before[i].instance < instance {
        assert before[i].instance <= instance && before[i].instance != instance;
      }
    }
  }

  /** A picked axis is the first object met with its instance: its name and its GUID. */
  lemma {:induction false} PickedAreFirst(objects: seq<AxisObject>, i: nat)
    requires Sorted(LessByInstance(), objects) && i < |PickAxes(objects)|
    ensures var picked := PickAxes(objects)[i];
            var first := FirstWith(objects, picked.instance);
            first.Some? && picked == Described(first.value)
  {
    var last := |objects| - 1;
    var front, before := objects[..last], PickAxes(objects[..last]);
    if i < |before| {
      PickedAreFirst(front, i);
    } else if FirstWith(front, AxisInstance(objects[last])).Some? {
      LeftOutIsLarger(front, AxisInstance(objects[last]));
      assert false;
    }
  }

  /** The axis table: strictly ascending, at most 32 entries, each the first enumerated object
      of its instance; an enumerated instance is left out only when the table is full of
      smaller ones. */
  lemma AxisTableExact(objects: seq<AxisObject>, instance: uint16)
    ensures var axes := AxisTable(objects);
            var enumerated := exists k :: 0 <= k < |objects| && AxisInstance(objects[k]) == instance;
            && |axes| <= MAX_AXES && AscendingInstances(axes)
            && (Listed(axes, instance) ==> enumerated)
            && (forall i | 0 <= i < |axes| && axes[i].instance == instance ::
                  FirstWith(objects, instance).Some? && axes[i] == Described(FirstWith(objects, instance).value))
            && (enumerated && !Listed(axes, instance) ==>
                  |axes| == MAX_AXES && forall i | 0 <= i < |axes| :: axes[i].instance < instance)
  {
    var sorted := InsertionSort(LessByInstance(), objects);
    SortIsSortedPermutation(LessByInstance(), objects);
    SortKeepsFirst(objects, instance);
    FirstWithFinds(objects, instance);
    var axes := AxisTable(objects);
    forall i | 0 <= i < |axes| && axes[i].instance == instance
      ensures FirstWith(objects, instance).Some? && axes[i] == Described(FirstWith(objects, instance).value)
    {
      PickedAreFirst(sorted, i);
    }
    if FirstWith(objects, instance).Some? && !Listed(axes, instance) {
      LeftOutIsLarger(sorted, instance);
    }
  }

  // ---- What an entry says ----

  /** The number a string of decimal digits stands for. */
  function Value(digits: string): int {
    if digits == "" then 0 else Value(digits[..|digits| - 1]) * 10 + (digits[|digits| - 1] as int - '0' as int)
  }

  /** The decimal numeral of a number: it reads back, has no other characters than digits, and
      no leading zero. */
  lemma {:induction false} DigitsReadBack(n: nat)
    ensures Value(Digits(n)) == n && Digits(n) != ""
    ensures forall k | 0 <= k < |Digits(n)| :: '0' <= Digits(n)[k] <= '9'
    ensures n > 0 ==> Digits(n)[0] != '0'
  {
    if n < 10 {
      assert Digits(n)[..0] == "";
    } else {
      DigitsReadBack(n / 10);
      assert Digits(n)[..|Digits(n)| - 1] == Digits(n / 10);
    }
  }

  /** No object before this one has its instance. */
  predicate FirstAt(objects: seq<AxisObject>, k: nat) {
    && k < |objects|
    && forall j | 0 <= j < k ::
         (objects[j].objectType / 0x100) % 0x1_0000 != (objects[k].objectType / 0x100) % 0x1_0000
  }

  /** What FirstWith finds. */
  ghost predicate FoundAt(objects: seq<AxisObject>, instance: uint16, first: Option<AxisObject>) {
    match first
    case None => forall j | 0 <= j < |objects| :: AxisInstance(objects[j]) != instance
    case Some(found) => exists k: nat :: FirstAt(objects, k) && objects[k] == found && AxisInstance(found) == instance
  }

  lemma FoundOn(front: seq<AxisObject>, instance: uint16, first: AxisObject, last: AxisObject)
    requires FoundAt(front, instance, Some(first))
    ensures FoundAt(front + [last], instance, Some(first))
  {
    var k: nat :| FirstAt(front, k) && front[k] == first && AxisInstance(first) == instance;
    var objects := front + [last];
    forall j | 0 <= j < k ensures AxisInstance(objects[j]) != AxisInstance(objects[k]) {
      assert objects[j] == front[j];
    }
    assert FirstAt(objects, k) && objects[k] == first;
  }

  lemma FoundLast(front: seq<AxisObject>, instance: uint16, last: AxisObject)
    requires FoundAt(front, instance, None)
    ensures FoundAt(front + [last], instance, if AxisInstance(last) == instance then Some(last) else None)
  {
    var objects := front + [last];
    if AxisInstance(last) == instance {
      assert FirstAt(objects, |front|) && objects[|front|] == last;
    }
  }

  lemma {:induction false} FirstWithIsAt(objects: seq<AxisObject>, instance: uint16)
    ensures FoundAt(objects, instance, FirstWith(objects, instance))
  {
    if objects == [] {
    } else {
      var front, last := objects[..|objects| - 1], objects[|objects| - 1];
      FirstWithIsAt(front, instance);
      assert objects == front + [last];
      if FirstWith(front, instance).Some? {
        FoundOn(front, instance, FirstWith(front, instance).value, last);
      } else {
        FoundLast(front, instance, last);
      }
    }
  }

  /** Every entry is the first enumerated object of its instance: it has that object's GUID,
      and its name, or "Axis" and the instance number where that is empty. */
  lemma AxisEntryIsFirstObject(objects: seq<AxisObject>, i: nat)
    requires i < |AxisTable(objects)|
    ensures exists k: nat ::
              && FirstAt(objects, k)
              && var axis, source := AxisTable(objects)[i], objects[k];
                 && axis.instance == (source.objectType / 0x100) % 0x1_0000
                 && axis.guid == source.guid
                 && axis.name == (if source.name != "" then source.name else "Axis " + Digits(axis.instance))
  {
    var axis := AxisTable(objects)[i];
    AxisTableExact(objects, axis.instance);
    assert FirstWith(objects, axis.instance).Some? && axis == Described(FirstWith(objects, axis.instance).value);
    FirstWithIsAt(objects, axis.instance);
    var k: nat :| FirstAt(objects, k) && objects[k] == FirstWith(objects, axis.instance).value
                  && AxisInstance(objects[k]) == axis.instance;
  }
}
