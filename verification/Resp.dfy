/**
 * RESP commands and replies: encodeCommand and readReply in
 * internal/notifier/valkey/client.go, readCommand in
 * dashboard/internal/valkeytest/valkeytest.go and redisEncode in
 * internal/driver/redis.go.
 */
module Resp {
  import opened Base

  type byte = b: int | 0 <= b < 256

  type bytes = seq<byte>

  const STAR: byte := 42
  const DOLLAR: byte := 36
  const PLUS: byte := 43
  const MINUS: byte := 45
  const COLON: byte := 58
  const ZERO: byte := 48
  const CR: byte := 13
  const LF: byte := 10

  const CRLF: bytes := [CR, LF]

  /** Bounds of Go's int. */
  const MAX_INT := 0x7FFF_FFFF_FFFF_FFFF
  const MIN_INT := -0x8000_0000_0000_0000

  // ---------------------------------------------------------------- numbers

  /** strconv.Itoa of a length. */
  function Itoa(n: nat): bytes {
    if n < 10 then [ZERO + n] else Itoa(n / 10) + [ZERO + n % 10]
  }

  predicate IsDigit(b: byte) {
    ZERO <= b < ZERO + 10
  }

  function Digits(s: bytes): Option<nat> {
    if s == [] then None
    else
      var b := s[|s| - 1];
      if !IsDigit(b) then None
      else if |s| == 1 then Some(b - ZERO)
      else
        var high := Digits(s[..|s| - 1]);
        if high.None? then None else Some(high.value * 10 + (b - ZERO))
  }

  /** strconv.Atoi: an optional sign, digits, and a value an int can hold. */
  function Atoi(s: bytes): Option<int> {
    var signed := s != [] && (s[0] == PLUS || s[0] == MINUS);
    var n := Digits(if signed then s[1..] else s);
    if n.None? then None
    else
      var m: int := n.value;
      var v := if signed && s[0] == MINUS then -m else m;
      if MIN_INT <= v <= MAX_INT then Some(v) else None
  }

  /** The ASCII space that strings.TrimSpace removes. */
  predicate IsSpace(b: byte) {
    9 <= b <= 13 || b == 32
  }

  function TrimLeft(s: bytes): bytes {
    if s != [] && IsSpace(s[0]) then TrimLeft(s[1..]) else s
  }

  function TrimEnd(s: bytes, cut: byte -> bool): bytes {
    if s != [] && cut(s[|s| - 1]) then TrimEnd(s[..|s| - 1], cut) else s
  }

  function TrimSpace(s: bytes): bytes {
    TrimEnd(TrimLeft(s), IsSpace)
  }

  function TrimSuffixCrlf(s: bytes): bytes {
    if |s| >= 2 && s[|s| - 2..] == CRLF then s[..|s| - 2] else s
  }

  lemma {:induction false} ItoaReads(n: nat)
    ensures Digits(Itoa(n)) == Some(n) && Itoa(n) != []
    ensures forall i :: 0 <= i < |Itoa(n)| ==> IsDigit(Itoa(n)[i])
  {
    if n >= 10 {
      ItoaReads(n / 10);
      assert Itoa(n)[..|Itoa(n)| - 1] == Itoa(n / 10);
    }
  }

  lemma AtoiOfItoa(n: nat)
    requires n <= MAX_INT
    ensures Atoi(Itoa(n)) == Some(n)
  {
    ItoaReads(n);
    assert IsDigit(Itoa(n)[0]);
  }

  predicate IsLineEnd(b: byte) {
    b == CR || b == LF
  }

  lemma TrimLineEnd(s: bytes, cut: byte -> bool)
    requires s != [] && IsDigit(s[|s| - 1]) && cut(CR) && cut(LF) && forall b: byte :: cut(b) ==> !IsDigit(b)
    ensures TrimEnd(s + CRLF, cut) == s
  {
    assert (s + CRLF)[..|s| + 1] == s + [CR];
    assert (s + [CR])[..|s|] == s;
    assert !cut(s[|s| - 1]);
    assert TrimEnd(s, cut) == s;
    assert TrimEnd(s + [CR], cut) == s;
    assert TrimEnd(s + CRLF, cut) == TrimEnd(s + [CR], cut);
  }

  lemma TrimmedNumber(n: nat)
    requires n <= MAX_INT
    ensures Atoi(TrimSpace(Itoa(n) + CRLF)) == Some(n)
    ensures Atoi(TrimEnd(Itoa(n) + CRLF, IsLineEnd)) == Some(n)
  {
    ItoaReads(n);
    assert IsDigit(Itoa(n)[0]) && IsDigit(Itoa(n)[|Itoa(n)| - 1]);
    assert TrimLeft(Itoa(n) + CRLF) == Itoa(n) + CRLF;
    TrimLineEnd(Itoa(n), IsSpace);
    TrimLineEnd(Itoa(n), IsLineEnd);
    AtoiOfItoa(n);
  }

  // --------------------------------------------------------------- encoding

  function Header(kind: byte, n: nat): bytes {
    [kind] + Itoa(n) + CRLF
  }

  function Bulk(arg: bytes): bytes {
    Header(DOLLAR, |arg|) + arg + CRLF
  }

  function Bulks(args: seq<bytes>): bytes {
    if args == [] then [] else Bulk(args[0]) + Bulks(args[1..])
  }

  function Encoded(args: seq<bytes>): bytes {
    Header(STAR, |args|) + Bulks(args)
  }

  lemma {:induction false} BulksMore(args: seq<bytes>, arg: bytes)
    ensures Bulks(args + [arg]) == Bulks(args) + Bulk(arg)
  {
    if args == [] {
      assert args + [arg] == [arg];
      assert [arg][1..] == [];
    } else {
      assert (args + [arg])[1..] == args[1..] + [arg];
      BulksMore(args[1..], arg);
    }
  }

  method EncodeCommand(cmd: seq<bytes>) returns (b: bytes)
    ensures b == Encoded(cmd)
  {
    hide Itoa, Bulks;
    b := [STAR];
    b := b + Itoa(|cmd|);
    b := b + CRLF;
    NoBulks();
    assert cmd[..0] == [];
    for i := 0 to |cmd|
      invariant b == Header(STAR, |cmd|) + Bulks(cmd[..i])
    {
      var arg := cmd[i];
      assert cmd[..i + 1] == cmd[..i] + [arg];
      BulksMore(cmd[..i], arg);
      b := b + [DOLLAR];
      b := b + Itoa(|arg|);
      b := b + CRLF;
      b := b + arg;
      b := b + CRLF;
    }
    assert cmd[..|cmd|] == cmd;
  }

  lemma NoBulks()
    ensures Bulks([]) == []
  {
  }

  /** The health check's own encoder writes the same bytes. */
  method RedisEncode(args: seq<bytes>) returns (b: bytes)
    ensures b == Encoded(args)
  {
    hide Itoa, Bulks;
    b := [STAR] + Itoa(|args|) + CRLF;
    NoBulks();
    assert args[..0] == [];
    for i := 0 to |args|
      invariant b == Header(STAR, |args|) + Bulks(args[..i])
    {
      assert args[..i + 1] == args[..i] + [args[i]];
      BulksMore(args[..i], args[i]);
      b := b + ([DOLLAR] + Itoa(|args[i]|) + CRLF + args[i] + CRLF);
    }
    assert args[..|args|] == args;
  }

  // ---------------------------------------------------------------- parsing

  /** What a reply holds; simple and bulk strings read alike. */
  datatype Reply = Str(text: bytes) | Num(n: int) | Nil | Items(items: seq<Reply>)

  /** What reading gives, and what is left unread. A size no slice can have panics. */
  datatype Parsed<+T> = Got(value: T, rest: bytes) | Failed | Panics

  function FirstLf(s: bytes): (i: nat)
    ensures i <= |s| && (i < |s| ==> s[i] == LF)
    ensures forall k :: 0 <= k < i ==> s[k] != LF
  {
    if s == [] || s[0] == LF then 0 else 1 + FirstLf(s[1..])
  }

  function ParseReply(s: bytes): (p: Parsed<Reply>)
    ensures p.Got? ==> |p.rest| < |s|
    decreases |s|, 0, 0
  {
    var i := FirstLf(s);
    if i == |s| then Failed
    else
      var kind, body, rest := s[0], s[1..i + 1], s[i + 1..];
      if kind == PLUS then Got(Str(TrimSuffixCrlf(body)), rest)
      else if kind == COLON then
        var n := Atoi(TrimSpace(body));
        if n.None? then Failed else Got(Num(n.value), rest)
      else if kind == DOLLAR then ParseBulk(Atoi(TrimSpace(body)), rest)
      else if kind == STAR then
        var count := Atoi(TrimSpace(body));
        if count.None? then Failed
        else if count.value < 0 then Panics
        else
          var p := ParseItems(count.value, rest);
          if p.Got? then Got(Items(p.value), p.rest) else if p.Failed? then Failed else Panics
      else Failed
  }

  function ParseBulk(size: Option<int>, rest: bytes): (p: Parsed<Reply>)
    ensures p.Got? ==> |p.rest| <= |rest|
  {
    if size.None? then Failed
    else if size.value < 0 then Got(Nil, rest)
    else if size.value + 2 > MAX_INT then Panics
    else if size.value + 2 > |rest| then Failed
    else Got(Str(rest[..size.value]), rest[size.value + 2..])
  }

  function ParseItems(count: nat, s: bytes): (p: Parsed<seq<Reply>>)
    ensures p.Got? ==> |p.rest| <= |s|
    decreases |s|, 1, count
  {
    if count == 0 then Got([], s)
    else
      match ParseReply(s)
      case Failed => Failed
      case Panics => Panics
      case Got(item, rest) =>
        match ParseItems(count - 1, rest)
        case Failed => Failed
        case Panics => Panics
        case Got(items, left) => Got([item] + items, left)
  }

  /** A line without its end, and what follows it. */
  function ParseLine(s: bytes): (p: Parsed<bytes>)
    ensures p.Got? ==> |p.rest| < |s|
  {
    var i := FirstLf(s);
    if i == |s| then Failed else Got(TrimEnd(s[..i + 1], IsLineEnd), s[i + 1..])
  }

  function ParseCommand(s: bytes): (p: Parsed<seq<bytes>>)
    ensures p.Got? ==> |p.rest| < |s|
  {
    var line := ParseLine(s);
    if line.Failed? || line.Panics? || line.value == [] || line.value[0] != STAR then Failed
    else
      var n := Atoi(line.value[1..]);
      if n.None? then Failed else if n.value < 0 then Panics else ParseArgs(n.value, line.rest)
  }

  function ParseArg(s: bytes): (p: Parsed<bytes>)
    ensures p.Got? ==> |p.rest| < |s|
  {
    var line := ParseLine(s);
    if line.Failed? || line.Panics? || line.value == [] || line.value[0] != DOLLAR then Failed
    else
      var size := Atoi(line.value[1..]);
      if size.None? then Failed
      else if size.value < -2 || size.value + 2 > MAX_INT then Panics
      else if size.value + 2 > |line.rest| then Failed
      else if size.value < 0 then Panics
      else Got(line.rest[..size.value], line.rest[size.value + 2..])
  }

  function ParseArgs(n: nat, s: bytes): (p: Parsed<seq<bytes>>)
    ensures p.Got? ==> |p.rest| <= |s|
  {
    if n == 0 then Got([], s)
    else
      match ParseArg(s)
      case Failed => Failed
      case Panics => Panics
      case Got(arg, rest) =>
        match ParseArgs(n - 1, rest)
        case Failed => Failed
        case Panics => Panics
        case Got(args, left) => Got([arg] + args, left)
  }

  // ------------------------------------------------------------ the readers

  /** A buffered reader over a connection that has sent `left` and nothing more. */
  class Reader {
    var left: bytes

    constructor (sent: bytes)
      ensures left == sent
    {
      left := sent;
    }

    /** Reads through the next LF; without one, reads all there is and fails. */
    method ReadString() returns (line: bytes, err: bool)
      modifies this
      ensures var i := FirstLf(old(left));
              if i == |old(left)| then err && left == []
              else !err && line == old(left)[..i + 1] && left == old(left)[i + 1..]
    {
      var i := 0;
      while i < |left| && left[i] != LF
        invariant i <= |left| == |old(left)| && left == old(left)
        invariant forall k :: 0 <= k < i ==> left[k] != LF
      {
        i := i + 1;
      }
      if i == |left| {
        line, left := left, [];
        return line, true;
      }
      line, left := left[..i + 1], left[i + 1..];
      err := false;
    }

    method ReadFull(n: nat) returns (buf: bytes, err: bool)
      modifies this
      ensures if n > |old(left)| then err && left == []
              else !err && buf == old(left)[..n] && left == old(left)[n..]
    {
      if n > |left| {
        buf, left := left, [];
        return buf, true;
      }
      buf, left := left[..n], left[n..];
      err := false;
    }
  }

  datatype Outcome<+T> = Ok(value: T) | Err | Panic

  /** `res` is what reading `s` gives, with the reader left where it should be. */
  ghost predicate Read<T>(p: Parsed<T>, res: Outcome<T>, left: bytes) {
    match p
    case Got(v, rest) => res == Ok(v) && left == rest
    case Failed => res.Err?
    case Panics => res.Panic?
  }

  function Prepend<T>(first: seq<T>, p: Parsed<seq<T>>): Parsed<seq<T>> {
    if p.Got? then Got(first + p.value, p.rest) else p
  }

  lemma NextItem(first: seq<Reply>, count: nat, s: bytes, whole: Parsed<seq<Reply>>)
    requires count > 0 && whole == Prepend(first, ParseItems(count, s))
    ensures match ParseReply(s)
            case Failed => whole == Failed
            case Panics => whole == Panics
            case Got(item, rest) => whole == Prepend(first + [item], ParseItems(count - 1, rest))
  {
    var p := ParseReply(s);
    if p.Got? {
      var q := ParseItems(count - 1, p.rest);
      if q.Got? {
        assert first + ([p.value] + q.value) == first + [p.value] + q.value;
      }
    }
  }

  method ReadReply(r: Reader) returns (res: Outcome<Reply>)
    modifies r
    ensures Read(ParseReply(old(r.left)), res, r.left)
    decreases |r.left|
  {
    ghost var s := r.left;
    var line, err := r.ReadString();
    if err {
      return Err;
    }
    ghost var i := FirstLf(s);
    assert line[0] == s[0] && line[1..] == s[1..i + 1];
    if line[0] == PLUS {
      return Ok(Str(TrimSuffixCrlf(line[1..])));
    } else if line[0] == MINUS {
      return Err;
    } else if line[0] == COLON {
      var n := Atoi(TrimSpace(line[1..]));
      return if n.None? then Err else Ok(Num(n.value));
    } else if line[0] == DOLLAR {
      var size := Atoi(TrimSpace(line[1..]));
      if size.None? {
        return Err;
      }
      if size.value < 0 {
        return Ok(Nil);
      }
      if size.value + 2 > MAX_INT {
        return Panic;
      }
      var buf, short := r.ReadFull(size.value + 2);
      if short {
        return Err;
      }
      assert buf[..size.value] == s[i + 1..][..size.value];
      return Ok(Str(buf[..size.value]));
    } else if line[0] == STAR {
      var count := Atoi(TrimSpace(line[1..]));
      if count.None? {
        return Err;
      }
      if count.value < 0 {
        return Panic;
      }
      res := ReadItems(r, count.value, s);
    } else {
      return Err;
    }
  }

  /** The array case: `count` more replies. */
  method ReadItems(r: Reader, count: nat, ghost s: bytes) returns (res: Outcome<Reply>)
    requires |r.left| < |s|
    modifies r
    ensures Read(ParseItems(count, old(r.left)), if res.Ok? &&
        res.value.Items? then Ok(res.value.items) else if res.Panic? then Panic else Err, r.left)
    ensures res.Ok? ==> res.value.Items?
    decreases |s|, 0
  {
    hide ParseReply, ParseItems;
    ghost var whole := ParseItems(count, r.left);
    ghost var start := |r.left|;
    var items := seq(count, _ => Nil);
    NoItems(r.left);
    for i := 0 to count
      invariant |items| == count && |r.left| <= start
      invariant whole == Prepend(items[..i], ParseItems(count - i, r.left))
    {
      NextItem(items[..i], count - i, r.left, whole);
      var item := ReadReply(r);
      if item.Err? || item.Panic? {
        return item;
      }
      items := items[i := item.value];
      assert items[..i + 1] == items[..i] + [item.value];
    }
    NoItems(r.left);
    assert items[..count] == items && items + [] == items;
    res := Ok(Items(items));
  }

  lemma NoItems(s: bytes)
    ensures ParseItems(0, s) == Got([], s) && forall p: Parsed<seq<Reply>> :: Prepend([], p) == p
  {
    forall p: Parsed<seq<Reply>> ensures Prepend([], p) == p {
      assert p.Got? ==> [] + p.value == p.value;
    }
  }

  lemma NextArg(first: seq<bytes>, n: nat, s: bytes, whole: Parsed<seq<bytes>>)
    requires n > 0 && whole == Prepend(first, ParseArgs(n, s))
    ensures match ParseArg(s)
            case Failed => whole == Failed
            case Panics => whole == Panics
            case Got(arg, rest) => whole == Prepend(first + [arg], ParseArgs(n - 1, rest))
  {
    var p := ParseArg(s);
    if p.Got? {
      var q := ParseArgs(n - 1, p.rest);
      if q.Got? {
        assert first + ([p.value] + q.value) == first + [p.value] + q.value;
      }
    }
  }

  lemma NoArgs(s: bytes)
    ensures ParseArgs(0, s) == Got([], s) && forall p: Parsed<seq<bytes>> :: Prepend([], p) == p
  {
    forall p: Parsed<seq<bytes>> ensures Prepend([], p) == p {
      assert p.Got? ==> [] + p.value == p.value;
    }
  }

  method ReadLine(r: Reader) returns (res: Outcome<bytes>)
    modifies r
    ensures Read(ParseLine(old(r.left)), res, r.left)
  {
    var line, err := r.ReadString();
    res := if err then Err else Ok(TrimEnd(line, IsLineEnd));
  }

  method ReadCommand(r: Reader) returns (res: Outcome<seq<bytes>>)
    modifies r
    ensures Read(ParseCommand(old(r.left)), res, r.left)
  {
    hide ParseLine, ParseArg, ParseArgs, Atoi;
    var line := ReadLine(r);
    if !line.Ok? {
      return Err;
    }
    if line.value == [] || line.value[0] != STAR {
      return Err;
    }
    var n := Atoi(line.value[1..]);
    if n.None? {
      return Err;
    }
    if n.value < 0 {
      return Panic;
    }
    ghost var whole := ParseArgs(n.value, r.left);
    var args: seq<bytes> := [];
    NoArgs(r.left);
    for i := 0 to n.value
      invariant whole == Prepend(args, ParseArgs(n.value - i, r.left))
    {
      NextArg(args, n.value - i, r.left, whole);
      var arg := ReadArg(r);
      if arg.Err? {
        return Err;
      }
      if arg.Panic? {
        return Panic;
      }
      args := args + [arg.value];
    }
    NoArgs(r.left);
    assert args + [] == args;
    res := Ok(args);
  }

  /** One argument of a command. A negative size panics, though not before what it asks for is read. */
  method ReadArg(r: Reader) returns (res: Outcome<bytes>)
    modifies r
    ensures Read(ParseArg(old(r.left)), res, r.left)
  {
    hide ParseLine, Atoi;
    var line := ReadLine(r);
    if !line.Ok? || line.value == [] || line.value[0] != DOLLAR {
      return Err;
    }
    var size := Atoi(line.value[1..]);
    if size.None? {
      return Err;
    }
    if size.value + 2 < 0 || size.value + 2 > MAX_INT {
      return Panic;
    }
    ghost var rest := r.left;
    var buf, short := r.ReadFull(size.value + 2);
    if short {
      return Err;
    }
    if size.value < 0 {
      return Panic;
    }
    assert buf[..size.value] == rest[..size.value];
    res := Ok(buf[..size.value]);
  }

  // ------------------------------------------------------------ round trips

  /** Strings Go can hold along with the two bytes after them. */
  predicate Holdable(args: seq<bytes>) {
    |args| <= MAX_INT && forall i :: 0 <= i < |args| ==> |args[i]| + 2 <= MAX_INT
  }

  /** A line of some text, and what follows it. */
  lemma LineOf(kind: byte, text: bytes, rest: bytes)
    requires kind != LF && LF !in text
    ensures var s, i := [kind] + text + CRLF + rest, |text| + 2;
            && FirstLf(s) == i < |s| && s[0] == kind && s[1..i + 1] == text + CRLF && s[i + 1..] == rest
            && s[..i + 1] == [kind] + text + CRLF
  {
    var s, i := [kind] + text + CRLF + rest, |text| + 2;
    forall k | 0 <= k < i ensures s[k] != LF {
      assert s[k] == if k == 0 then kind else if k <= |text| then text[k - 1] else CR;
    }
    assert s[i] == LF;
  }

  lemma ItoaIsText(n: nat)
    ensures LF !in Itoa(n)
  {
    ItoaReads(n);
  }

  lemma HeaderLine(kind: byte, n: nat, rest: bytes)
    requires kind != LF
    ensures var s, i := Header(kind, n) + rest, |Header(kind, n)| - 1;
            && FirstLf(s) == i && s[0] == kind && s[..i + 1] == Header(kind, n)
            && s[1..i + 1] == Itoa(n) + CRLF && s[i + 1..] == rest
  {
    ItoaIsText(n);
    LineOf(kind, Itoa(n), rest);
    assert Header(kind, n) == [kind] + Itoa(n) + CRLF;
  }

  /** The reply parser reads a header back, and leaves what follows it. */
  lemma HeaderReads(kind: byte, n: nat, rest: bytes)
    requires kind != LF && n <= MAX_INT
    ensures var s := Header(kind, n) + rest;
            var line := ParseLine(s);
            && line.Got? && line.value == [kind] + Itoa(n) && line.rest == rest
            && Atoi(line.value[1..]) == Some(n)
  {
    HeaderLine(kind, n, rest);
    ItoaReads(n);
    var t := [kind] + Itoa(n);
    assert Header(kind, n) == t + CRLF;
    TrimLineEnd(t, IsLineEnd);
    assert t[1..] == Itoa(n);
    AtoiOfItoa(n);
  }

  lemma BulkIs(arg: bytes, rest: bytes)
    ensures Bulk(arg) + rest == Header(DOLLAR, |arg|) + (arg + CRLF + rest)
  {
  }

  lemma BulkReads(arg: bytes, rest: bytes)
    requires |arg| + 2 <= MAX_INT
    ensures ParseReply(Bulk(arg) + rest) == Got(Str(arg), rest)
    ensures ParseArg(Bulk(arg) + rest) == Got(arg, rest)
  {
    hide Atoi, TrimSpace, Itoa, TrimEnd, FirstLf;
    var body := arg + CRLF + rest;
    BulkIs(arg, rest);
    HeaderLine(DOLLAR, |arg|, body);
    TrimmedNumber(|arg|);
    HeaderReads(DOLLAR, |arg|, body);
    assert body[..|arg|] == arg && body[|arg| + 2..] == rest;
  }

  function Strings(args: seq<bytes>): seq<Reply> {
    seq(|args|, i requires 0 <= i < |args| => Str(args[i]))
  }

  lemma {:induction false} BulksRead(args: seq<bytes>, rest: bytes)
    requires Holdable(args)
    ensures ParseItems(|args|, Bulks(args) + rest) == Got(Strings(args), rest)
    ensures ParseArgs(|args|, Bulks(args) + rest) == Got(args, rest)
    decreases |args|
  {
    hide ParseReply, ParseArg, Bulk;
    if args == [] {
      assert Bulks(args) + rest == rest;
    } else {
      var more := Bulks(args[1..]) + rest;
      assert Bulks(args) + rest == Bulk(args[0]) + more;
      BulkReads(args[0], more);
      BulksRead(args[1..], rest);
      assert Strings(args) == [Str(args[0])] + Strings(args[1..]);
      assert args == [args[0]] + args[1..];
    }
  }

  /**
   * Either parser reads a command back exactly, whatever its bytes and
   * whatever follows it, and takes no byte of what follows.
   */
  lemma CommandReadsBack(args: seq<bytes>, rest: bytes)
    requires Holdable(args)
    ensures ParseReply(Encoded(args) + rest) == Got(Items(Strings(args)), rest)
    ensures ParseCommand(Encoded(args) + rest) == Got(args, rest)
  {
    hide Atoi, TrimSpace, Itoa, Bulks, ParseItems, ParseArgs, TrimEnd, FirstLf, Header;
    var body := Bulks(args) + rest;
    assert Encoded(args) + rest == Header(STAR, |args|) + body;
    HeaderLine(STAR, |args|, body);
    TrimmedNumber(|args|);
    HeaderReads(STAR, |args|, body);
    BulksRead(args, rest);
  }

  /** No command's bytes begin another's. */
  lemma EncodingIsPrefixFree(a: seq<bytes>, b: seq<bytes>, x: bytes, y: bytes)
    requires Holdable(a) && Holdable(b) && Encoded(a) + x == Encoded(b) + y
    ensures a == b && x == y
  {
    hide Encoded, ParseCommand, ParseReply;
    CommandReadsBack(a, x);
    CommandReadsBack(b, y);
  }

  function Stream(cmds: seq<seq<bytes>>): bytes {
    if cmds == [] then [] else Encoded(cmds[0]) + Stream(cmds[1..])
  }

  function ParseCommands(n: nat, s: bytes): Parsed<seq<seq<bytes>>> {
    if n == 0 then Got([], s)
    else
      match ParseCommand(s)
      case Failed => Failed
      case Panics => Panics
      case Got(cmd, rest) =>
        match ParseCommands(n - 1, rest)
        case Failed => Failed
        case Panics => Panics
        case Got(cmds, left) => Got([cmd] + cmds, left)
  }

  /** A pipeline of commands is read back as those commands, one after the other. */
  lemma {:induction false} PipelineReadsBack(cmds: seq<seq<bytes>>, rest: bytes)
    requires forall i :: 0 <= i < |cmds| ==> Holdable(cmds[i])
    ensures ParseCommands(|cmds|, Stream(cmds) + rest) == Got(cmds, rest)
    decreases |cmds|
  {
    hide Encoded, ParseCommand, Holdable, ParseReply;
    if cmds == [] {
      assert Stream(cmds) + rest == rest;
    } else {
      var more := Stream(cmds[1..]) + rest;
      assert Stream(cmds) + rest == Encoded(cmds[0]) + more;
      CommandReadsBack(cmds[0], more);
      PipelineReadsBack(cmds[1..], rest);
      assert cmds == [cmds[0]] + cmds[1..];
    }
  }

  // ------------------------------------------------------- negative lengths

  /** strconv.Itoa. */
  function ItoaSigned(n: int): bytes {
    if n < 0 then [MINUS] + Itoa(-n) else Itoa(n)
  }

  lemma SignedReads(n: int)
    requires MIN_INT <= n <= MAX_INT
    ensures LF !in ItoaSigned(n) && Atoi(ItoaSigned(n)) == Some(n)
    ensures Atoi(TrimSpace(ItoaSigned(n) + CRLF)) == Some(n)
    ensures TrimEnd(ItoaSigned(n) + CRLF, IsLineEnd) == ItoaSigned(n)
  {
    hide TrimEnd;
    var s := ItoaSigned(n);
    var digits := Itoa(if n < 0 then -n else n);
    ItoaReads(if n < 0 then -n else n);
    ItoaIsText(if n < 0 then -n else n);
    assert IsDigit(digits[0]) && IsDigit(s[|s| - 1]);
    assert n < 0 ==> s[1..] == digits;
    assert TrimLeft(s + CRLF) == s + CRLF;
    TrimLineEnd(s, IsSpace);
    TrimLineEnd(s, IsLineEnd);
  }

  /** A command of a negative number of arguments panics, wherever it stands. */
  lemma NegativeCountPanics(n: int, rest: bytes)
    requires MIN_INT <= n < 0
    ensures ParseCommand([STAR] + ItoaSigned(n) + CRLF + rest) == Panics
    ensures ParseReply([STAR] + ItoaSigned(n) + CRLF + rest) == Panics
  {
    hide Atoi, TrimSpace, ItoaSigned, TrimEnd, FirstLf;
    SignedReads(n);
    LineOf(STAR, ItoaSigned(n), rest);
    LineTrims(STAR, n);
    assert ([STAR] + ItoaSigned(n))[1..] == ItoaSigned(n);
  }

  lemma LineTrims(kind: byte, n: int)
    requires MIN_INT <= n <= MAX_INT
    ensures TrimEnd([kind] + ItoaSigned(n) + CRLF, IsLineEnd) == [kind] + ItoaSigned(n)
  {
    var s := [kind] + ItoaSigned(n);
    ItoaReads(if n < 0 then -n else n);
    assert IsDigit(s[|s| - 1]);
    TrimLineEnd(s, IsLineEnd);
  }

  /**
   * An argument of a negative size is a nil string to one parser, and makes
   * the other panic, but for a size of -1 with nothing after it.
   */
  lemma NegativeSize(n: int, rest: bytes)
    requires MIN_INT <= n < 0
    ensures ParseReply([DOLLAR] + ItoaSigned(n) + CRLF + rest) == Got(Nil, rest)
    ensures ParseArg([DOLLAR] + ItoaSigned(n) + CRLF + rest) == if n == -1 && rest == [] then Failed else Panics
  {
    hide Atoi, TrimSpace, ItoaSigned, TrimEnd, FirstLf;
    SignedReads(n);
    LineOf(DOLLAR, ItoaSigned(n), rest);
    LineTrims(DOLLAR, n);
    assert ([DOLLAR] + ItoaSigned(n))[1..] == ItoaSigned(n);
  }

  // -------------------------------------------------------- truncated input

  lemma FirstLfStays(s: bytes, more: bytes)
    requires FirstLf(s) < |s|
    ensures FirstLf(s + more) == FirstLf(s)
  {
    var i, j := FirstLf(s), FirstLf(s + more);
    assert (s + more)[i] == LF;
    assert forall k :: 0 <= k < i ==> (s + more)[k] == s[k];
  }

  /** More bytes at the end change nothing of what was read before them, unless they were missing. */
  lemma {:induction false} MoreBytesReply(s: bytes, more: bytes)
    ensures match ParseReply(s)
            case Failed => true
            case Panics => ParseReply(s + more) == Panics
            case Got(v, rest) => ParseReply(s + more) == Got(v, rest + more)
    decreases |s|, 0, 0
  {
    hide Atoi, TrimSpace, TrimSuffixCrlf;
    var i := FirstLf(s);
    if i < |s| {
      FirstLfStays(s, more);
      var t := s + more;
      assert t[0] == s[0] && t[1..i + 1] == s[1..i + 1] && t[i + 1..] == s[i + 1..] + more;
      var size := Atoi(TrimSpace(s[1..i + 1]));
      if s[0] == DOLLAR {
        MoreBytesBulk(size, s[i + 1..], more);
      } else if s[0] == STAR && size.Some? && size.value >= 0 {
        MoreBytesItems(size.value, s[i + 1..], more);
      }
    }
  }

  lemma MoreBytesBulk(size: Option<int>, rest: bytes, more: bytes)
    ensures match ParseBulk(size, rest)
            case Failed => true
            case Panics => ParseBulk(size, rest + more) == Panics
            case Got(v, left) => ParseBulk(size, rest + more) == Got(v, left + more)
  {
    if size.Some? && 0 <= size.value && size.value + 2 <= |rest| {
      assert (rest + more)[..size.value] == rest[..size.value];
      assert (rest + more)[size.value + 2..] == rest[size.value + 2..] + more;
    }
  }

  lemma {:induction false} MoreBytesItems(count: nat, s: bytes, more: bytes)
    ensures match ParseItems(count, s)
            case Failed => true
            case Panics => ParseItems(count, s + more) == Panics
            case Got(v, rest) => ParseItems(count, s + more) == Got(v, rest + more)
    decreases |s|, 1, count
  {
    hide ParseReply;
    if count > 0 {
      MoreBytesReply(s, more);
      var p := ParseReply(s);
      if p.Got? {
        MoreBytesItems(count - 1, p.rest, more);
      }
    }
  }

  /** A command cut short is an error: it is never read as something else, and never panics. */
  lemma TruncatedCommandFails(args: seq<bytes>, k: nat)
    requires Holdable(args) && k < |Encoded(args)|
    ensures ParseReply(Encoded(args)[..k]) == Failed
  {
    hide ParseReply, Encoded, Strings;
    var all := Encoded(args);
    MoreBytesReply(all[..k], all[k..]);
    assert all[..k] + all[k..] == all && all + [] == all;
    CommandReadsBack(args, []);
    assert all[k..] != [];
  }
}
