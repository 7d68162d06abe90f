/** PASSTHRU_MSG lists on their way to the application: `map_put_PASSTHRU_MSG` (cbor_utils.cpp) builds
    a CBOR tree, `ExJ2534ReadMsgsList::processPipeMessage` (exj2534readmsgslist.cpp) reads it back.
    Trees follow the data model of section 2 of RFC 8949; their byte encoding is not modelled. */
module MessageList {
  import opened Bytes
  import opened PassThru

  datatype Cbor =
    | Undefined
    | Int(n: int)
    | Text(s: string)
    | Data(bytes: seq<byte>)
    | Array(items: seq<Cbor>)
    | Map(entries: seq<(Cbor, Cbor)>)

  // Keys of ExPipeClient and PipeMessage.
  const KEY_FUNC_NAME: word := 0
  const KEY_PARAM1: word := 1
  const KEY_PARAM2: word := 2
  const KEY_PARAM3: word := 3
  const KEY_PARAM4: word := 4
  const KEY_PARAM5: word := 5
  const KEY_PARAM6: word := 6
  const KEY_PARAM7: word := 7
  const KEY_RX_TX: word := 8
  const KEY_RETVAL_LONG: word := 9
  const KEY_ERROR: word := 10
  const KEY_PASSTHRU_OPEN: word := 20
  const KEY_PASSTHRU_CLOSE: word := 21
  const KEY_PASSTHRU_SELECT: word := 22
  const KEY_PASSTHRU_CONNECT: word := 23
  const KEY_PASSTHRU_READ_MSGS: word := 27
  const KEY_PASSTHRU_SCAN_FOR_DEVICES: word := 34
  const KEY_PASSTHRU_GET_NEXT_DEVICE: word := 35
  const KEY_PASSTHRU_WRITE_MSGS: word := 36
  const KEY_PASSTHRU_GET_NEXT_CARDAQ: word := 52

  // ---------------------------------------------------------------- writing

  /** A cn_cbor map under construction; puts do not look for duplicates. */
  class CborMap {
    var entries: seq<(Cbor, Cbor)>

    constructor ()
      ensures entries == []
    {
      entries := [];
    }

    method Put(key: Cbor, value: Cbor)
      modifies this
      ensures entries == old(entries) + [(key, value)]
    {
      entries := entries + [(key, value)];
    }
  }

  class CborArray {
    var items: seq<Cbor>

    constructor ()
      ensures items == []
    {
      items := [];
    }

    method Append(value: Cbor)
      modifies this
      ensures items == old(items) + [value]
    {
      items := items + [value];
    }
  }

  method MapPutInt(cbMap: CborMap, key: word, value: word)
    modifies cbMap
    ensures cbMap.entries == old(cbMap.entries) + [(Int(key), Int(value))]
  {
    cbMap.Put(Int(key), Int(value));
  }

  method MapPutData(cbMap: CborMap, key: word, data: seq<byte>, len: word)
    requires len <= |data|
    modifies cbMap
    ensures cbMap.entries == old(cbMap.entries) + [(Int(key), Data(data[..len]))]
  {
    cbMap.Put(Int(key), Data(data[..len]));
  }

  /** The sizes are within the fixed data arrays. */
  ghost predicate Sized(msgs: seq<PassThruMsg>) {
    forall i :: 0 <= i < |msgs| ==> msgs[i].dataSize <= DATA_CAPACITY
  }

  function MessageTree(m: PassThruMsg): Cbor
    requires m.dataSize <= DATA_CAPACITY
  {
    Map([(Int(KEY_PARAM1), Int(m.protocolID)),
         (Int(KEY_PARAM2), Int(m.rxStatus)),
         (Int(KEY_PARAM3), Int(m.txFlags)),
         (Int(KEY_PARAM4), Int(m.timestamp)),
         (Int(KEY_PARAM5), Int(m.dataSize)),
         (Int(KEY_PARAM6), Int(m.extraDataIndex)),
         (Int(KEY_PARAM7), Data(m.data[..m.dataSize]))])
  }

  function MessageTrees(msgs: seq<PassThruMsg>): (r: seq<Cbor>)
    requires Sized(msgs)
    ensures |r| == |msgs| && forall i :: 0 <= i < |msgs| ==> r[i] == MessageTree(msgs[i])
  {
    seq(|msgs|, i requires 0 <= i < |msgs| => MessageTree(msgs[i]))
  }

  function ListTree(msgs: seq<PassThruMsg>): Cbor
    requires Sized(msgs)
  {
    Map([(Int(0), Int(|msgs|)), (Int(1), Array(MessageTrees(msgs)))])
  }

  /** One element of the list. */
  method MessageMap(m: PassThruMsg) returns (mapElem: CborMap)
    requires m.dataSize <= DATA_CAPACITY
    ensures fresh(mapElem) && Map(mapElem.entries) == MessageTree(m)
  {
    mapElem := new CborMap();
    MapPutInt(mapElem, KEY_PARAM1, m.protocolID);
    MapPutInt(mapElem, KEY_PARAM2, m.rxStatus);
    MapPutInt(mapElem, KEY_PARAM3, m.txFlags);
    MapPutInt(mapElem, KEY_PARAM4, m.timestamp);
    MapPutInt(mapElem, KEY_PARAM5, m.dataSize);
    MapPutInt(mapElem, KEY_PARAM6, m.extraDataIndex);
    MapPutData(mapElem, KEY_PARAM7, m.data, m.dataSize);
  }

  method MapPutPassThruMsg(cbMap: CborMap, key: word, msgsCount: word, msgs: seq<PassThruMsg>)
    requires msgsCount <= |msgs| && Sized(msgs[..msgsCount])
    modifies cbMap
    ensures cbMap.entries == old(cbMap.entries) + [(Int(key), ListTree(msgs[..msgsCount]))]
  {
    ghost var list := msgs[..msgsCount];
    var mapRoot := new CborMap();
    var cbArray := new CborArray();
    mapRoot.Put(Int(0), Int(msgsCount));
    hide MessageTree;
    for i := 0 to msgsCount
      invariant cbArray.items == MessageTrees(list)[..i]
      invariant mapRoot.entries == [(Int(0), Int(msgsCount))]
      invariant cbMap.entries == old(cbMap.entries)
    {
      assert list[i] == msgs[i];
      var mapElem := MessageMap(msgs[i]);
      cbArray.Append(Map(mapElem.entries));
    }
    assert MessageTrees(list)[..msgsCount] == MessageTrees(list);
    mapRoot.Put(Int(1), Array(cbArray.items));
    assert mapRoot.entries == ListTree(list).entries;
    cbMap.Put(Int(key), Map(mapRoot.entries));
  }

  // ---------------------------------------------------------------- reading

  function ToMap(c: Cbor): seq<(Cbor, Cbor)> { if c.Map? then c.entries else [] }

  function ToArray(c: Cbor): seq<Cbor> { if c.Array? then c.items else [] }

  function ToInteger(c: Cbor): int { if c.Int? then c.n else 0 }

  function ToByteArray(c: Cbor): seq<byte> { if c.Data? then c.bytes else [] }

  /** The value of the first entry with an integer key. */
  function Value(entries: seq<(Cbor, Cbor)>, key: int): Cbor {
    if entries == [] then Undefined
    else if entries[0].0 == Int(key) then entries[0].1
    else Value(entries[1..], key)
  }

  function Element(items: seq<Cbor>, i: nat): Cbor { if i < |items| then items[i] else Undefined }

  /** Assignment of a 64-bit integer to an unsigned long. */
  function Narrow(n: int): word { n % TWO_32 }

  /** The payload fits the fixed data array it is copied into. */
  predicate Copyable(c: Cbor) {
    |ToByteArray(Value(ToMap(c), KEY_PARAM7))| <= DATA_CAPACITY
  }

  function ReadMessage(c: Cbor): PassThruMsg
    requires Copyable(c)
  {
    var e := ToMap(c);
    Message(Narrow(ToInteger(Value(e, KEY_PARAM1))), Narrow(ToInteger(Value(e, KEY_PARAM2))),
            Narrow(ToInteger(Value(e, KEY_PARAM3))), Narrow(ToInteger(Value(e, KEY_PARAM4))),
            Narrow(ToInteger(Value(e, KEY_PARAM5))), Narrow(ToInteger(Value(e, KEY_PARAM6))),
            Fill(ToByteArray(Value(e, KEY_PARAM7))))
  }

  /** The number of messages announced: none when the parameter is an integer instead of a list. */
  function Announced(root: Cbor): int {
    var list := Value(ToMap(root), KEY_PARAM2);
    if list.Int? then 0 else ToInteger(Value(ToMap(list), 0))
  }

  function Items(root: Cbor): seq<Cbor> {
    ToArray(Value(ToMap(Value(ToMap(root), KEY_PARAM2)), 1))
  }

  ghost predicate Readable(root: Cbor) {
    forall i: nat :: i < Announced(root) ==> Copyable(Element(Items(root), i))
  }

  function ReadMessages(root: Cbor): (r: seq<PassThruMsg>)
    requires Readable(root)
  {
    seq(if Announced(root) < 0 then 0 else Announced(root),
        i requires 0 <= i < Announced(root) => ReadMessage(Element(Items(root), i)))
  }

  class ExJ2534ReadMsgsList {
    /** p_objs; the elements are never changed once appended. */
    var objs: seq<PassThruMsg>

    constructor ()
      ensures objs == []
    {
      objs := [];
    }

    method AddElement(m: PassThruMsg)
      modifies this
      ensures objs == old(objs) + [m]
    {
      objs := objs + [m];
    }

    method ProcessPipeMessage(root: Cbor)
      requires Readable(root)
      modifies this
      ensures objs == old(objs) + ReadMessages(root)
    {
      var list := Value(ToMap(root), KEY_PARAM2);
      if list.Int? {
        return;
      }
      var count := ToInteger(Value(ToMap(list), 0));
      var items := ToArray(Value(ToMap(list), 1));
      var i := 0;
      while i < count
        invariant 0 <= i <= if count < 0 then 0 else count
        invariant objs == old(objs) + ReadMessages(root)[..i]
      {
        var cbor := ToMap(Element(items, i));
        assert Copyable(Element(Items(root), i));
        var data := ToByteArray(Value(cbor, KEY_PARAM7));
        var msg: PassThruMsg := Message(0, 0, 0, 0, 0, 0, Fill([]));
        msg := msg.(protocolID := Narrow(ToInteger(Value(cbor, KEY_PARAM1))));
        msg := msg.(rxStatus := Narrow(ToInteger(Value(cbor, KEY_PARAM2))));
        msg := msg.(txFlags := Narrow(ToInteger(Value(cbor, KEY_PARAM3))));
        msg := msg.(timestamp := Narrow(ToInteger(Value(cbor, KEY_PARAM4))));
        msg := msg.(dataSize := Narrow(ToInteger(Value(cbor, KEY_PARAM5))));
        msg := msg.(extraDataIndex := Narrow(ToInteger(Value(cbor, KEY_PARAM6))));
        msg := msg.(data := Fill(data));
        AddElement(msg);
        i := i + 1;
      }
    }
  }

  // ---------------------------------------------------------------- round trip

  /** A message as the application gets to see it: the bytes beyond DataSize read as zero. */
  function Trimmed(m: PassThruMsg): PassThruMsg
    requires m.dataSize <= DATA_CAPACITY
  {
    m.(data := Fill(m.data[..m.dataSize]))
  }

  lemma {:induction false} ValueAt(e: seq<(Cbor, Cbor)>, key: int, k: nat)
    requires k < |e| && e[k].0 == Int(key)
    requires forall i :: 0 <= i < k ==> e[i].0 != Int(key)
    ensures Value(e, key) == e[k].1
    decreases k
  {
    if k > 0 { ValueAt(e[1..], key, k - 1); }
  }

  lemma ReadMessageTree(m: PassThruMsg)
    requires m.dataSize <= DATA_CAPACITY
    ensures Copyable(MessageTree(m)) && ReadMessage(MessageTree(m)) == Trimmed(m)
  {
    var e := MessageTree(m).entries;
    hide Value;
    ValueAt(e, KEY_PARAM1, 0);
    ValueAt(e, KEY_PARAM2, 1);
    ValueAt(e, KEY_PARAM3, 2);
    ValueAt(e, KEY_PARAM4, 3);
    ValueAt(e, KEY_PARAM5, 4);
    ValueAt(e, KEY_PARAM6, 5);
    ValueAt(e, KEY_PARAM7, 6);
  }

  /** What the application makes of any one element: fields by their numbers, integers reduced to 32
      bits, the data as they are, whatever DataSize says. */
  lemma ReadAnyFields(n1: int, n2: int, n3: int, n4: int, n5: int, n6: int, bytes: seq<byte>)
    requires |bytes| <= DATA_CAPACITY
    ensures var c := Map([(Int(1), Int(n1)), (Int(2), Int(n2)), (Int(3), Int(n3)), (Int(4), Int(n4)),
                          (Int(5), Int(n5)), (Int(6), Int(n6)), (Int(7), Data(bytes))]);
            Copyable(c)
            && ReadMessage(c) == Message(n1 % 0x1_0000_0000, n2 % 0x1_0000_0000, n3 % 0x1_0000_0000,
                                         n4 % 0x1_0000_0000, n5 % 0x1_0000_0000, n6 % 0x1_0000_0000, Fill(bytes))
  {
    var e := [(Int(1), Int(n1)), (Int(2), Int(n2)), (Int(3), Int(n3)), (Int(4), Int(n4)),
              (Int(5), Int(n5)), (Int(6), Int(n6)), (Int(7), Data(bytes))];
    hide Value;
    ValueAt(e, 1, 0);
    ValueAt(e, 2, 1);
    ValueAt(e, 3, 2);
    ValueAt(e, 4, 3);
    ValueAt(e, 5, 4);
    ValueAt(e, 6, 5);
    ValueAt(e, 7, 6);
  }

  const BLANK: PassThruMsg := Message(0, 0, 0, 0, 0, 0, Fill([]))

  /** An element that is missing or not a map reads as a blank message. */
  lemma ReadNoMap(c: Cbor)
    requires !c.Map?
    ensures Copyable(c) && ReadMessage(c) == BLANK
  {}

  /** What the application makes of any list: as many messages as are announced, none for a negative
      number, and blank ones where the array is too short. */
  lemma ReadAnyList(n: int, items: seq<Cbor>)
    requires forall i :: 0 <= i < |items| ==> Copyable(items[i])
    ensures var root := Map([(Int(2), Map([(Int(0), Int(n)), (Int(1), Array(items))]))]);
            Readable(root) && |ReadMessages(root)| == (if n < 0 then 0 else n)
            && forall i :: 0 <= i < n ==>
                 ReadMessages(root)[i] == if i < |items| then ReadMessage(items[i]) else BLANK
  {
    var list := [(Int(0), Int(n)), (Int(1), Array(items))];
    var root := Map([(Int(2), Map(list))]);
    ValueAt(root.entries, 2, 0);
    ValueAt(list, 0, 0);
    ValueAt(list, 1, 1);
    ReadNoMap(Undefined);
    hide Value, ReadMessage, Copyable, BLANK;
    assert Announced(root) == n && Items(root) == items;
  }

  lemma ListTreeParts(msgs: seq<PassThruMsg>)
    requires Sized(msgs)
    ensures Value(ToMap(ListTree(msgs)), 0) == Int(|msgs|)
    ensures Value(ToMap(ListTree(msgs)), 1) == Array(MessageTrees(msgs))
  {
    ValueAt(ListTree(msgs).entries, 1, 1);
  }

  /** Every list put under Param2 of a map that did not use that key comes back complete and in order:
      all header fields as they were, the data up to DataSize as it was and zero after it. */
  lemma ListRoundTrip(before: seq<(Cbor, Cbor)>, msgs: seq<PassThruMsg>, after: seq<(Cbor, Cbor)>)
    requires Sized(msgs)
    requires forall i :: 0 <= i < |before| ==> before[i].0 != Int(KEY_PARAM2)
    ensures var root := Map(before + [(Int(KEY_PARAM2), ListTree(msgs))] + after);
            Readable(root) && |ReadMessages(root)| == |msgs|
            && forall i :: 0 <= i < |msgs| ==> ReadMessages(root)[i] == Trimmed(msgs[i])
  {
    hide ListTree, MessageTree, Trimmed, ReadMessage, Copyable;
    var root := Map(before + [(Int(KEY_PARAM2), ListTree(msgs))] + after);
    ValueAt(root.entries, KEY_PARAM2, |before|);
    ListTreeParts(msgs);
    ListTreeIsMap(msgs);
    forall i | 0 <= i < |msgs|
      ensures Copyable(Element(Items(root), i)) && ReadMessage(Element(Items(root), i)) == Trimmed(msgs[i])
    {
      ReadMessageTree(msgs[i]);
    }
  }

  lemma ListTreeIsMap(msgs: seq<PassThruMsg>)
    requires Sized(msgs)
    ensures ListTree(msgs).Map?
  {}

  /** A message survives unchanged exactly when its array is zero beyond DataSize. */
  lemma TrimmedSame(m: PassThruMsg)
    requires m.dataSize <= DATA_CAPACITY
    ensures Trimmed(m) == m <==> forall i :: m.dataSize <= i < DATA_CAPACITY ==> m.data[i] == 0
  {
    FillUnique(m.data[..m.dataSize], m.data);
  }
}
