/** Replies of every kind, printed and read back: readReply in internal/notifier/valkey/client.go. */
module RespReplies {
  import opened Base
  import opened Resp

  /** A reply as a server means it. */
  datatype Value =
    | Simple(text: bytes)
    | Error(text: bytes)
    | Integer(n: int)
    | BulkString(text: bytes)
    | NilBulk
    | NilArray
    | Array(items: seq<Value>)

  /** Anything but an array. */
  function PrintedLeaf(v: Value): bytes
    requires !v.Array?
  {
    match v
    case Simple(text) => [PLUS] + text + CRLF
    case Error(text) => [MINUS] + text + CRLF
    case Integer(n) => [COLON] + ItoaSigned(n) + CRLF
    case BulkString(text) => Bulk(text)
    case NilBulk => [DOLLAR] + ItoaSigned(-1) + CRLF
    case NilArray => [STAR] + ItoaSigned(-1) + CRLF
  }

  /** Replies one after the other. */
  function Printed(vs: seq<Value>): bytes {
    if vs == [] then []
    else
      (match vs[0]
       case Array(items) => Header(STAR, |items|) + Printed(items)
       case _ => PrintedLeaf(vs[0])) + Printed(vs[1..])
  }

  /** Lines hold no LF, and numbers and sizes fit. */
  predicate Printable(vs: seq<Value>) {
    vs == [] ||
    ((match vs[0]
      case Simple(text) => LF !in text
      case Error(text) => LF !in text
      case Integer(n) => MIN_INT <= n <= MAX_INT
      case BulkString(text) => |text| + 2 <= MAX_INT
      case Array(items) => |items| <= MAX_INT && Printable(items)
      case _ => true) && Printable(vs[1..]))
  }

  /** Everything but the arrays around it, in the order it is printed. */
  function Leaves(vs: seq<Value>): seq<Value> {
    if vs == [] then [] else (if vs[0].Array? then Leaves(vs[0].items) else [vs[0]]) + Leaves(vs[1..])
  }

  /** What a program is given for a reply: both kinds of string, a number, nil or a list. */
  function Meaning(vs: seq<Value>): (r: seq<Reply>)
    ensures |r| == |vs|
  {
    if vs == [] then []
    else
      [match vs[0]
       case Simple(text) => Str(text)
       case BulkString(text) => Str(text)
       case Integer(n) => Num(n)
       case Array(items) => Items(Meaning(items))
       case _ => Nil] + Meaning(vs[1..])
  }

  /** Reading stops at an error, and cannot get past a nil array. */
  predicate Stops(v: Value) {
    v.Error? || v.NilArray?
  }

  /** The first leaf that stops the reader. */
  function FirstStop(leaves: seq<Value>): Option<Value> {
    if leaves == [] then None else if Stops(leaves[0]) then Some(leaves[0]) else FirstStop(leaves[1..])
  }

  function Outcome<T>(stop: Option<Value>, value: T, rest: bytes): Parsed<T> {
    if stop.None? then Got(value, rest) else if stop.value.Error? then Failed else Panics
  }

  lemma {:induction false} FirstStopAppend(a: seq<Value>, b: seq<Value>)
    ensures FirstStop(a + b) == if FirstStop(a).Some? then FirstStop(a) else FirstStop(b)
  {
    if a == [] {
      assert a + b == b;
    } else {
      assert (a + b)[1..] == a[1..] + b;
      FirstStopAppend(a[1..], b);
    }
  }

  lemma {:induction false} FirstStopIs(leaves: seq<Value>)
    ensures FirstStop(leaves).None? <==> forall i :: 0 <= i < |leaves| ==> !Stops(leaves[i])
    ensures FirstStop(leaves).Some? ==>
              exists i :: 0 <= i < |leaves| && FirstStop(leaves) == Some(leaves[i]) && Stops(leaves[i]) &&
                          forall j :: 0 <= j < i ==> !Stops(leaves[j])
  {
    if leaves != [] && !Stops(leaves[0]) {
      FirstStopIs(leaves[1..]);
      if FirstStop(leaves).Some? {
        var rest := leaves[1..];
        var i :| 0 <= i < |rest| && FirstStop(rest) == Some(rest[i]) && Stops(rest[i]) &&
                 forall j :: 0 <= j < i ==> !Stops(rest[j]);
        assert leaves[i + 1] == rest[i];
        forall j | 0 <= j < i + 1 ensures !Stops(leaves[j]) {
          assert j > 0 ==> leaves[j] == rest[j - 1];
        }
      }
    }
  }

  lemma SimpleReads(text: bytes, rest: bytes)
    requires LF !in text
    ensures ParseReply([PLUS] + text + CRLF + rest) == Got(Str(text), rest)
    ensures ParseReply([MINUS] + text + CRLF + rest) == Failed
  {
    hide FirstLf;
    LineOf(PLUS, text, rest);
    LineOf(MINUS, text, rest);
    assert (text + CRLF)[|text|..] == CRLF && (text + CRLF)[..|text|] == text;
  }

  lemma IntegerReads(n: int, rest: bytes)
    requires MIN_INT <= n <= MAX_INT
    ensures ParseReply([COLON] + ItoaSigned(n) + CRLF + rest) == Got(Num(n), rest)
  {
    hide FirstLf, Atoi, TrimSpace, ItoaSigned;
    SignedReads(n);
    LineOf(COLON, ItoaSigned(n), rest);
  }

  lemma LeafReads(v: Value, rest: bytes)
    requires !v.Array? && Printable([v])
    ensures ParseReply(PrintedLeaf(v) + rest) ==
            if v.Error? then Failed else if v.NilArray? then Panics else Got(Meaning([v])[0], rest)
  {
    hide ParseReply, ItoaSigned;
    match v
    case Simple(text) => SimpleReads(text, rest);
    case Error(text) => SimpleReads(text, rest);
    case Integer(n) => IntegerReads(n, rest);
    case BulkString(text) => BulkReads(text, rest);
    case NilBulk => NegativeSize(-1, rest);
    case NilArray => NegativeCountPanics(-1, rest);
  }

  /** An array is read when its items are. */
  lemma ArrayReads(count: nat, body: bytes)
    requires count <= MAX_INT
    ensures ParseReply(Header(STAR, count) + body) ==
            match ParseItems(count, body)
            case Got(items, rest) => Got(Items(items), rest)
            case Failed => Failed
            case Panics => Panics
  {
    hide FirstLf, Atoi, TrimSpace, Itoa, Header, ParseItems;
    HeaderLine(STAR, count, body);
    TrimmedNumber(count);
  }

  /** The next item, and then the rest. */
  lemma ItemReads(count: nat, s: bytes)
    requires count > 0
    ensures ParseItems(count, s) ==
            match ParseReply(s)
            case Failed => Failed
            case Panics => Panics
            case Got(item, rest) =>
              match ParseItems(count - 1, rest)
              case Failed => Failed
              case Panics => Panics
              case Got(items, left) => Got([item] + items, left)
  {
  }

  /** Whatever stops the first item or the rest stops them together. */
  lemma ItemThenRest(count: nat, s: bytes, item: Reply, first: Option<Value>, more: bytes, items: seq<Reply>,
                     second: Option<Value>, rest: bytes)
    requires count > 0 && ParseReply(s) == Outcome(first, item, more)
    requires ParseItems(count - 1, more) == Outcome(second, items, rest)
    ensures ParseItems(count, s) == Outcome(if first.Some? then first else second, [item] + items, rest)
  {
    hide ParseReply, ParseItems;
    ItemReads(count, s);
  }

  /** What is printed of one reply, and its leaves. */
  function PrintedOne(v: Value): bytes {
    if v.Array? then Header(STAR, |v.items|) + Printed(v.items) else PrintedLeaf(v)
  }

  function LeavesOne(v: Value): seq<Value> {
    if v.Array? then Leaves(v.items) else [v]
  }

  /** The first reply, and the rest. */
  lemma Split(vs: seq<Value>, rest: bytes)
    requires vs != [] && Printable(vs)
    ensures Printed(vs) + rest == PrintedOne(vs[0]) + (Printed(vs[1..]) + rest)
    ensures Leaves(vs) == LeavesOne(vs[0]) + Leaves(vs[1..])
    ensures |Meaning([vs[0]])| == 1 && Meaning(vs) == [Meaning([vs[0]])[0]] + Meaning(vs[1..])
    ensures Printable([vs[0]]) && Printable(vs[1..])
  {
    hide PrintedLeaf, Header;
    assert [vs[0]][1..] == [];
  }

  lemma LeafHead(v: Value, more: bytes)
    requires !v.Array? && Printable([v])
    ensures ParseReply(PrintedOne(v) + more) == Outcome(FirstStop(LeavesOne(v)), Meaning([v])[0], more)
  {
    hide ParseReply, PrintedLeaf, FirstStop, Meaning;
    LeafReads(v, more);
    OneLeaf(v);
  }

  lemma ArrayHead(v: Value, more: bytes)
    requires v.Array? && Printable([v])
    requires ParseItems(|v.items|, Printed(v.items) + more) ==
             Outcome(FirstStop(Leaves(v.items)), Meaning(v.items), more)
    ensures ParseReply(PrintedOne(v) + more) == Outcome(FirstStop(LeavesOne(v)), Meaning([v])[0], more)
  {
    hide ParseReply, ParseItems, Header, FirstStop, Leaves, Printed;
    ArrayReads(|v.items|, Printed(v.items) + more);
    assert PrintedOne(v) + more == Header(STAR, |v.items|) + (Printed(v.items) + more);
    ArrayMeaning(v);
  }

  lemma ArrayMeaning(v: Value)
    requires v.Array?
    ensures |Meaning([v])| == 1 && Meaning([v])[0] == Items(Meaning(v.items))
  {
  }

  lemma {:induction false} RepliesRead(vs: seq<Value>, rest: bytes)
    requires Printable(vs)
    ensures ParseItems(|vs|, Printed(vs) + rest) == Outcome(FirstStop(Leaves(vs)), Meaning(vs), rest)
  {
    hide ParseReply, ParseItems, PrintedOne, LeavesOne, FirstStop, Outcome, Meaning, Leaves, Printed;
    if vs == [] {
      NothingRead(rest);
    } else {
      var v, more := vs[0], Printed(vs[1..]) + rest;
      Split(vs, rest);
      RepliesRead(vs[1..], rest);
      if v.Array? {
        RepliesRead(v.items, more);
        ArrayHead(v, more);
      } else {
        LeafHead(v, more);
      }
      FirstStopAppend(LeavesOne(v), Leaves(vs[1..]));
      ItemThenRest(|vs|, Printed(vs) + rest, Meaning([v])[0], FirstStop(LeavesOne(v)), more, Meaning(vs[1..]),
                   FirstStop(Leaves(vs[1..])), rest);
    }
  }

  lemma NothingRead(rest: bytes)
    ensures ParseItems(0, Printed([]) + rest) == Outcome(FirstStop(Leaves([])), Meaning([]), rest)
  {
    assert Printed([]) + rest == rest;
  }

  lemma OneLeaf(v: Value)
    requires !v.Array?
    ensures FirstStop([v]) == if Stops(v) then Some(v) else None
  {
  }

  ghost predicate FirstIs(leaves: seq<Value>, i: int) {
    0 <= i < |leaves| && Stops(leaves[i]) && forall j :: 0 <= j < i ==> !Stops(leaves[j])
  }

  /**
   * Any reply is read as what it means, with what follows it left unread, when
   * it holds neither an error nor a nil array. Otherwise the first of these
   * decides: an error is returned, a nil array panics.
   */
  lemma ReplyReadsBack(v: Value, rest: bytes)
    requires Printable([v])
    ensures var p, leaves := ParseReply(Printed([v]) + rest), Leaves([v]);
            && (p == Got(Meaning([v])[0], rest) <==> forall i :: 0 <= i < |leaves| ==> !Stops(leaves[i]))
            && (p.Panics? <==> exists i :: FirstIs(leaves, i) && leaves[i].NilArray?)
            && (p.Failed? <==> exists i :: FirstIs(leaves, i) && leaves[i].Error?)
  {
    hide ParseReply, ParseItems, Printed, Leaves, Meaning, FirstStop;
    var leaves := Leaves([v]);
    RepliesRead([v], rest);
    ItemReads(1, Printed([v]) + rest);
    var p := ParseReply(Printed([v]) + rest);
    if p.Got? {
      NoItems(p.rest);
      assert [p.value] + [] == [p.value];
    }
    FirstStopIs(leaves);
    if FirstStop(leaves).Some? {
      var i :| 0 <= i < |leaves| && FirstStop(leaves) == Some(leaves[i]) && Stops(leaves[i]) &&
               forall j :: 0 <= j < i ==> !Stops(leaves[j]);
      assert FirstIs(leaves, i);
      forall k | FirstIs(leaves, k) ensures k == i {
      }
    }
  }

  /** A reply without errors panics if and only if it holds a nil array. */
  lemma PanicsOnNilArrays(v: Value, rest: bytes)
    requires Printable([v])
    requires forall i :: 0 <= i < |Leaves([v])| ==> !Leaves([v])[i].Error?
    ensures ParseReply(Printed([v]) + rest) == Panics <==> NilArray in Leaves([v])
    ensures ParseReply(Printed([v]) + rest) == Got(Meaning([v])[0], rest) <==> NilArray !in Leaves([v])
  {
    hide ParseReply, ParseItems, Printed, Leaves, Meaning, FirstStop;
    var leaves := Leaves([v]);
    ReplyReadsBack(v, rest);
    FirstStopIs(leaves);
    if NilArray in leaves {
      var k :| 0 <= k < |leaves| && leaves[k] == NilArray;
      var i :| 0 <= i < |leaves| && FirstStop(leaves) == Some(leaves[i]) && Stops(leaves[i]) &&
               forall j :: 0 <= j < i ==> !Stops(leaves[j]);
      assert FirstIs(leaves, i) && leaves[i].NilArray?;
    }
  }

  /** The shortest such reply, "*-1", and one that never gets to it. */
  lemma NilArrayPanics()
    ensures ParseReply([STAR, MINUS, ZERO + 1, CR, LF]) == Panics
    ensures Printed([NilArray]) == [STAR, MINUS, ZERO + 1, CR, LF]
    ensures ParseReply(Printed([Array([Error([]), NilArray])])) == Failed
  {
    NegativeCountPanics(-1, []);
    NilArrayIs();
    hide ParseReply, Printed, ItoaSigned;
    var text := [STAR] + ItoaSigned(-1) + CRLF;
    assert text + [] == text;
    ErrorFirst();
  }

  lemma NilArrayIs()
    ensures [STAR] + ItoaSigned(-1) + CRLF == [STAR, MINUS, ZERO + 1, CR, LF] == Printed([NilArray])
  {
    assert ItoaSigned(-1) == [MINUS, ZERO + 1];
    var rest := [NilArray][1..];
    assert rest == [] && Printed(rest) == [];
  }

  lemma ErrorFirst()
    ensures ParseReply(Printed([Array([Error([]), NilArray])])) == Failed
  {
    hide ParseReply, Printed;
    var items := [Error([]), NilArray];
    var v := Array(items);
    assert items[1..] == [NilArray] && [NilArray][1..] == [] && [v][1..] == [];
    assert Leaves([NilArray]) == [NilArray];
    assert Leaves(items) == items;
    assert Leaves([v]) == items + [] == items;
    assert Printable([NilArray]);
    assert Printable(items);
    ReplyReadsBack(v, []);
    assert Printed([v]) + [] == Printed([v]);
    assert FirstIs(items, 0);
  }

  /** A reply without errors or nil arrays that is cut short anywhere is an error. */
  lemma TruncatedReplyFails(v: Value, k: nat)
    requires Printable([v]) && k < |Printed([v])|
    requires forall i :: 0 <= i < |Leaves([v])| ==> !Stops(Leaves([v])[i])
    ensures ParseReply(Printed([v])[..k]) == Failed
  {
    hide ParseReply, Printed, Leaves, Meaning;
    var all := Printed([v]);
    MoreBytesReply(all[..k], all[k..]);
    assert all[..k] + all[k..] == all && all + [] == all;
    ReplyReadsBack(v, []);
    assert all[k..] != [];
  }
}
