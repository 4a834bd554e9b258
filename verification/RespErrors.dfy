/**
 * What the reply parser takes and refuses among all bytes: readReply in
 * internal/notifier/valkey/client.go.
 */
module RespErrors {
  import opened Base
  import opened Resp

  // ---------------------------------------------------------------- numerals

  function Zeros(k: nat): bytes {
    seq(k, _ => ZERO)
  }

  /** `s` is written as `v`: a sign or none, any zeros, and the number's digits. */
  ghost predicate Numeral(s: bytes, v: int) {
    exists sign, k, n :: Written(s, v, sign, k, n)
  }

  ghost predicate Written(s: bytes, v: int, sign: bytes, k: nat, n: nat) {
    && (sign == [] || sign == [PLUS] || sign == [MINUS])
    && s == sign + Zeros(k) + Itoa(n) && v == if sign == [MINUS] then 0 - n else n
  }

  lemma {:induction false} DigitsOfZeros(k: nat)
    ensures Digits(Zeros(k + 1)) == Some(0)
  {
    if k > 0 {
      DigitsOfZeros(k - 1);
      assert Zeros(k + 1)[..k] == Zeros(k);
    }
  }

  lemma {:induction false} DigitsOf(k: nat, n: nat)
    ensures Digits(Zeros(k) + Itoa(n)) == Some(n)
  {
    var s := Zeros(k) + Itoa(n);
    if n >= 10 {
      DigitsOf(k, n / 10);
      assert s[..|s| - 1] == Zeros(k) + Itoa(n / 10);
    } else {
      assert s == Zeros(k) + [ZERO + n];
      assert s[..k] == Zeros(k);
      if k > 0 {
        DigitsOfZeros(k - 1);
      }
    }
  }

  lemma {:induction false} DigitsRead(s: bytes) returns (k: nat)
    requires Digits(s).Some?
    ensures s == Zeros(k) + Itoa(Digits(s).value)
    decreases |s|
  {
    var p, b := s[..|s| - 1], s[|s| - 1];
    assert s == p + [b];
    if p == [] {
      k := 0;
      assert Zeros(0) == [];
    } else {
      var j := DigitsRead(p);
      var m := Digits(p).value;
      if m > 0 {
        k := j;
        assert (m * 10 + (b - ZERO)) / 10 == m;
      } else {
        k := j + 1;
        assert Zeros(j) + [ZERO] == Zeros(j + 1);
      }
    }
  }

  /** Atoi takes exactly the numerals of values that an int holds. */
  lemma AtoiTakesNumerals(s: bytes, v: int)
    ensures Atoi(s) == Some(v) <==> Numeral(s, v) && MIN_INT <= v <= MAX_INT
  {
    hide Digits, Itoa;
    if Numeral(s, v) && MIN_INT <= v <= MAX_INT {
      var sign, k, n :| Written(s, v, sign, k, n);
      DigitsOf(k, n);
      StartsWithDigit(k, n);
      if sign == [] {
        assert s == Zeros(k) + Itoa(n);
      } else {
        assert s[1..] == Zeros(k) + Itoa(n);
      }
    }
    if Atoi(s) == Some(v) {
      var signed := s != [] && (s[0] == PLUS || s[0] == MINUS);
      var sign, t := if signed then [s[0]] else [], if signed then s[1..] else s;
      var k := DigitsRead(t);
      assert s == sign + Zeros(k) + Itoa(Digits(t).value);
      assert Written(s, v, sign, k, Digits(t).value);
    }
  }

  lemma StartsWithDigit(k: nat, n: nat)
    ensures var s := Zeros(k) + Itoa(n); s != [] && forall i :: 0 <= i < |s| ==> IsDigit(s[i])
  {
    ItoaReads(n);
  }

  // ------------------------------------------------------------------- lines

  predicate AllSpace(s: bytes) {
    forall i :: 0 <= i < |s| ==> IsSpace(s[i])
  }

  /** The line holds the numeral of `v`, with nothing but space around it. */
  ghost predicate HoldsNumber(body: bytes, v: int) {
    exists before, core, after :: Around(body, before, core, after) && Numeral(core, v)
  }

  ghost predicate Around(body: bytes, before: bytes, core: bytes, after: bytes) {
    body == before + core + after && AllSpace(before) && AllSpace(after)
  }

  lemma {:induction false} TrimLeftOf(before: bytes, s: bytes)
    requires AllSpace(before) && (s != [] ==> !IsSpace(s[0]))
    ensures TrimLeft(before + s) == s
    decreases |before|
  {
    if before == [] {
      assert before + s == s;
    } else {
      TrimLeftOf(before[1..], s);
      assert (before + s)[1..] == before[1..] + s;
    }
  }

  lemma {:induction false} TrimEndOf(s: bytes, after: bytes)
    requires AllSpace(after) && s != [] && !IsSpace(s[|s| - 1])
    ensures TrimEnd(s + after, IsSpace) == s
    decreases |after|
  {
    if after == [] {
      assert s + after == s;
    } else {
      TrimEndOf(s, after[..|after| - 1]);
      assert (s + after)[..|s + after| - 1] == s + after[..|after| - 1];
    }
  }

  lemma {:induction false} TrimLeftSplits(s: bytes) returns (before: bytes)
    ensures s == before + TrimLeft(s) && AllSpace(before)
    decreases |s|
  {
    if s != [] && IsSpace(s[0]) {
      var b := TrimLeftSplits(s[1..]);
      before := [s[0]] + b;
    } else {
      before := [];
    }
  }

  lemma {:induction false} TrimEndSplits(s: bytes) returns (after: bytes)
    ensures s == TrimEnd(s, IsSpace) + after && AllSpace(after)
    decreases |s|
  {
    if s != [] && IsSpace(s[|s| - 1]) {
      var a := TrimEndSplits(s[..|s| - 1]);
      after := a + [s[|s| - 1]];
    } else {
      after := [];
    }
  }

  lemma NumeralHasNoSpace(core: bytes, v: int)
    requires Numeral(core, v)
    ensures core != [] && !IsSpace(core[0]) && !IsSpace(core[|core| - 1])
  {
    hide Itoa;
    var sign, k, n :| Written(core, v, sign, k, n);
    StartsWithDigit(k, n);
    var t := Zeros(k) + Itoa(n);
    assert core == sign + t && core[|core| - 1] == t[|t| - 1];
  }

  /** A line's number is read exactly when the line holds a numeral and space, and an int holds its value. */
  lemma LineNumber(body: bytes, v: int)
    ensures Atoi(TrimSpace(body)) == Some(v) <==> HoldsNumber(body, v) && MIN_INT <= v <= MAX_INT
  {
    hide Atoi, Numeral;
    AtoiTakesNumerals(TrimSpace(body), v);
    if HoldsNumber(body, v) {
      var before, core, after :| Around(body, before, core, after) && Numeral(core, v);
      NumeralHasNoSpace(core, v);
      assert body == before + (core + after);
      TrimLeftOf(before, core + after);
      TrimEndOf(core, after);
    }
    var before := TrimLeftSplits(body);
    var after := TrimEndSplits(TrimLeft(body));
    assert Around(body, before, TrimSpace(body), after);
  }

  lemma NoNumber(body: bytes)
    requires HoldsNone(body)
    ensures Atoi(TrimSpace(body)).None?
  {
    hide Atoi, HoldsNumber;
    if Atoi(TrimSpace(body)).Some? {
      var v := Atoi(TrimSpace(body)).value;
      LineNumber(body, v);
    }
  }

  lemma FirstLfIs(body: bytes, rest: bytes)
    requires LF !in body
    ensures FirstLf(body + [LF] + rest) == |body|
  {
    var s := body + [LF] + rest;
    var i := FirstLf(s);
    assert s[|body|] == LF;
    forall k | 0 <= k < |body| ensures s[k] != LF {
      assert s[k] == body[k] && body[k] in body;
    }
  }

  lemma NoLineEnd(line: bytes)
    requires LF !in line
    ensures FirstLf(line) == |line|
  {
  }

  /** Where the first line of such bytes ends. */
  lemma FirstLine(kind: byte, body: bytes, rest: bytes)
    requires kind != LF && LF !in body
    ensures var s := [kind] + body + [LF] + rest;
            && FirstLf(s) == |body| + 1 < |s| && s[0] == kind && s[1..|body| + 2] == body + [LF]
            && s[|body| + 2..] == rest
  {
    hide FirstLf;
    var s, line := [kind] + body + [LF] + rest, [kind] + body;
    FirstLfIs(line, rest);
    assert s == line + [LF] + rest;
  }

  /** Without a line's end, or with any first byte but four, a reply is an error. */
  lemma OtherLinesFail(kind: byte, body: bytes, rest: bytes)
    requires kind != LF && LF !in body
    ensures ParseReply([kind] + body) == Failed
    ensures kind != PLUS && kind != COLON && kind != DOLLAR && kind != STAR ==>
              ParseReply([kind] + body + [LF] + rest) == Failed
  {
    hide FirstLf, Atoi, TrimSpace, ParseItems;
    FirstLine(kind, body, rest);
    NoLineEnd([kind] + body);
  }

  /** The line holds no number that an int can hold. */
  ghost predicate HoldsNone(body: bytes) {
    forall v :: MIN_INT <= v <= MAX_INT ==> !HoldsNumber(body, v)
  }

  /** An integer is the number that its line holds, and an error when it holds none. */
  lemma IntegerDecides(body: bytes, rest: bytes)
    requires LF !in body
    ensures var p, line := ParseReply([COLON] + body + [LF] + rest), body + [LF];
            && (forall v :: p == Got(Num(v), rest) <==> HoldsNumber(line, v) && MIN_INT <= v <= MAX_INT)
            && (HoldsNone(line) ==> p == Failed)
  {
    hide FirstLf, Atoi, TrimSpace, HoldsNumber, ParseItems;
    FirstLine(COLON, body, rest);
    forall v: int ensures Atoi(TrimSpace(body + [LF])) == Some(v) <==>
                          HoldsNumber(body + [LF], v) && MIN_INT <= v <= MAX_INT {
      LineNumber(body + [LF], v);
    }
    if HoldsNone(body + [LF]) {
      NoNumber(body + [LF]);
    }
  }

  /** A bulk string is as many bytes as its line counts, and two more; an error when it counts none or too many. */
  lemma SizeDecides(body: bytes, rest: bytes, n: nat)
    requires LF !in body
    ensures var p, line := ParseReply([DOLLAR] + body + [LF] + rest), body + [LF];
            && (HoldsNone(line) ==> p == Failed)
            && (n + 2 <= MAX_INT && HoldsNumber(line, n) ==>
                p == if n + 2 > |rest| then Failed else Got(Str(rest[..n]), rest[n + 2..]))
  {
    hide FirstLf, Atoi, TrimSpace, HoldsNumber, ParseItems;
    FirstLine(DOLLAR, body, rest);
    LineNumber(body + [LF], n);
    if HoldsNone(body + [LF]) {
      NoNumber(body + [LF]);
    }
  }

  /** An array is as many replies as its line says, read one after the other; an error when it says none. */
  lemma CountDecides(body: bytes, rest: bytes, n: nat)
    requires LF !in body
    ensures var p, line := ParseReply([STAR] + body + [LF] + rest), body + [LF];
            && (HoldsNone(line) ==> p == Failed)
            && (n <= MAX_INT && HoldsNumber(line, n) ==>
                match ParseItems(n, rest)
                case Got(items, left) => p == Got(Items(items), left)
                case Failed => p == Failed
                case Panics => p == Panics)
  {
    hide FirstLf, Atoi, TrimSpace, HoldsNumber, ParseItems;
    FirstLine(STAR, body, rest);
    LineNumber(body + [LF], n);
    if HoldsNone(body + [LF]) {
      NoNumber(body + [LF]);
    }
  }
}
