/** Command lines: dropping an option together with its value, what the options that
    are left mean, and decimal numerals. */
module Argv {
  // ------------------------------------------------------------- dropping options

  // Every token in `drop` goes, with the token that follows it.
  function DropPairs(drop: set<string>, argv: seq<string>): (out: seq<string>)
    ensures forall t | t in out :: t in argv && t !in drop
  {
    if argv == [] then []
    else if argv[0] in drop then (if |argv| == 1 then [] else DropPairs(drop, argv[2..]))
    else [argv[0]] + DropPairs(drop, argv[1..])
  }

  lemma {:induction false} NothingToDrop(drop: set<string>, argv: seq<string>)
    requires forall t | t in argv :: t !in drop
    ensures DropPairs(drop, argv) == argv
  {
    if argv != [] {
      NothingToDrop(drop, argv[1..]);
    }
  }

  lemma DropIsIdempotent(drop: set<string>, argv: seq<string>)
    ensures DropPairs(drop, DropPairs(drop, argv)) == DropPairs(drop, argv)
  {
    NothingToDrop(drop, DropPairs(drop, argv));
  }

  // What the strip loop still has to add from position i on.
  function Remaining(drop: set<string>, argv: seq<string>, i: nat, skipNext: bool): seq<string>
    requires i <= |argv|
  {
    DropPairs(drop, if skipNext && i < |argv| then argv[i + 1..] else argv[i..])
  }

  lemma RemainingStep(drop: set<string>, argv: seq<string>, i: nat)
    requires i < |argv|
    ensures Remaining(drop, argv, i, true) == Remaining(drop, argv, i + 1, false)
    ensures Remaining(drop, argv, i, false)
         == if argv[i] in drop then Remaining(drop, argv, i + 1, true)
            else [argv[i]] + Remaining(drop, argv, i + 1, false)
  {
    assert argv[i..][1..] == argv[i + 1..];
    if i + 1 < |argv| {
      assert argv[i..][2..] == argv[i + 2..];
    }
  }

  // The loop shared by the strip functions, with its `skip_next` flag.
  method Strip(drop: set<string>, argv: seq<string>) returns (out: seq<string>)
    ensures out == DropPairs(drop, argv)
  {
    out := [];
    var skipNext := false;
    assert argv[0..] == argv;
    for i := 0 to |argv|
      invariant out + Remaining(drop, argv, i, skipNext) == DropPairs(drop, argv)
    {
      RemainingStep(drop, argv, i);
      if skipNext {
        skipNext := false;
      } else if argv[i] in drop {
        skipNext := true;
      } else {
        Regroup(out, [argv[i]], Remaining(drop, argv, i + 1, false));
        out := out + [argv[i]];
      }
    }
  }

  // ------------------------------------------------- options and what they stand for

  datatype Opt = Opt(name: string, values: seq<string>)

  function Tokens(o: Opt): seq<string> {
    [o.name] + o.values
  }

  function Flatten(opts: seq<Opt>): seq<string> {
    if opts == [] then [] else Tokens(opts[0]) + Flatten(opts[1..])
  }

  lemma Regroup<T>(a: seq<T>, b: seq<T>, c: seq<T>)
    ensures a + b + c == a + (b + c)
  {}

  lemma TailOfConcat<T>(a: seq<T>, b: seq<T>)
    requires a != []
    ensures (a + b)[0] == a[0] && (a + b)[1..] == a[1..] + b
  {}

  function Except(drop: set<string>, opts: seq<Opt>): (kept: seq<Opt>)
    ensures forall o :: o in kept <==> o in opts && o.name !in drop
  {
    if opts == [] then []
    else if opts[0].name in drop then Except(drop, opts[1..])
    else [opts[0]] + Except(drop, opts[1..])
  }

  // Each dropped option has exactly one value, and nothing else reads like one.
  predicate Droppable(drop: set<string>, opts: seq<Opt>) {
    forall o | o in opts ::
      if o.name in drop then |o.values| == 1 else forall v | v in o.values :: v !in drop
  }

  lemma {:induction false} DropThenRest(drop: set<string>, head: seq<string>, rest: seq<string>)
    requires forall t | t in head :: t !in drop
    ensures DropPairs(drop, head + rest) == head + DropPairs(drop, rest)
  {
    if head == [] {
      assert head + rest == rest;
    } else {
      DropThenRest(drop, head[1..], rest);
      TailOfConcat(head, rest);
      Regroup([head[0]], head[1..], DropPairs(drop, rest));
      assert [head[0]] + head[1..] == head;
    }
  }

  lemma OneOptionDropped(drop: set<string>, o: Opt, rest: seq<string>)
    requires Droppable(drop, [o])
    ensures DropPairs(drop, Tokens(o) + rest) == (if o.name in drop then [] else Tokens(o)) + DropPairs(drop, rest)
  {
    assert o in [o];
    if o.name in drop {
      var argv := Tokens(o) + rest;
      assert argv[0] == o.name && argv[2..] == rest;
    } else {
      DropThenRest(drop, Tokens(o), rest);
    }
  }

  // On tokens, stripping is removing whole options: all others stay, in order.
  lemma {:induction false} DropRemovesOptions(drop: set<string>, opts: seq<Opt>)
    requires Droppable(drop, opts)
    ensures DropPairs(drop, Flatten(opts)) == Flatten(Except(drop, opts))
  {
    if opts != [] {
      var o, rest := opts[0], opts[1..];
      assert o in opts && forall p | p in rest :: p in opts;
      DropRemovesOptions(drop, rest);
      OneOptionDropped(drop, o, Flatten(rest));
      if o.name !in drop {
        TailOfConcat([o], Except(drop, rest));
      }
    }
  }

  lemma {:induction false} FlattenConcat(a: seq<Opt>, b: seq<Opt>)
    ensures Flatten(a + b) == Flatten(a) + Flatten(b)
  {
    if a == [] {
      assert a + b == b;
    } else {
      FlattenConcat(a[1..], b);
      TailOfConcat(a, b);
      Regroup(Tokens(a[0]), Flatten(a[1..]), Flatten(b));
    }
  }

  lemma FlattenOne(o: Opt)
    ensures Flatten([o]) == Tokens(o)
  {
    assert [o][1..] == [];
  }

  lemma FlattenThree(a: Opt, b: Opt, c: Opt)
    ensures Flatten([a, b, c]) == Tokens(a) + Tokens(b) + Tokens(c)
  {
    FlattenOne(a);
    FlattenOne(b);
    FlattenOne(c);
    FlattenConcat([a], [b]);
    FlattenConcat([a] + [b], [c]);
    assert [a] + [b] + [c] == [a, b, c];
  }

  // Options after tokens that are none of them, as in `docker run`.
  lemma DropRemovesOptionsAfter(drop: set<string>, head: seq<string>, opts: seq<Opt>)
    requires Droppable(drop, opts) && forall t | t in head :: t !in drop
    ensures DropPairs(drop, head + Flatten(opts)) == head + Flatten(Except(drop, opts))
  {
    DropThenRest(drop, head, Flatten(opts));
    DropRemovesOptions(drop, opts);
  }

  // argparse: the last occurrence of an option wins.
  function Meaning(opts: seq<Opt>): map<string, seq<string>> {
    if opts == [] then map[]
    else Meaning(opts[..|opts| - 1])[opts[|opts| - 1].name := opts[|opts| - 1].values]
  }

  function Occurrences(name: string, opts: seq<Opt>): nat {
    if opts == [] then 0 else (if opts[0].name == name then 1 else 0) + Occurrences(name, opts[1..])
  }

  lemma {:induction false} OccurrencesConcat(name: string, a: seq<Opt>, b: seq<Opt>)
    ensures Occurrences(name, a + b) == Occurrences(name, a) + Occurrences(name, b)
  {
    if a == [] {
      assert a + b == b;
    } else {
      OccurrencesConcat(name, a[1..], b);
      TailOfConcat(a, b);
    }
  }

  lemma {:induction false} NoOccurrence(name: string, opts: seq<Opt>)
    requires forall o | o in opts :: o.name != name
    ensures Occurrences(name, opts) == 0
  {
    if opts != [] {
      NoOccurrence(name, opts[1..]);
    }
  }

  lemma {:induction false} ExceptConcat(drop: set<string>, a: seq<Opt>, b: seq<Opt>)
    ensures Except(drop, a + b) == Except(drop, a) + Except(drop, b)
  {
    if a == [] {
      assert a + b == b;
    } else {
      ExceptConcat(drop, a[1..], b);
      TailOfConcat(a, b);
      Regroup([a[0]], Except(drop, a[1..]), Except(drop, b));
    }
  }

  lemma MeaningOfLast(init: seq<Opt>, o: Opt)
    ensures Meaning(init + [o]) == Meaning(init)[o.name := o.values]
  {
    assert (init + [o])[..|init + [o]| - 1] == init;
  }

  lemma ExceptLast(drop: set<string>, init: seq<Opt>, o: Opt)
    ensures Except(drop, init + [o]) == if o.name in drop then Except(drop, init) else Except(drop, init) + [o]
  {
    ExceptConcat(drop, init, [o]);
    assert Except(drop, [o]) == if o.name in drop then [] else [o];
  }

  lemma MinusAfterUpdate(m: map<string, seq<string>>, o: Opt, drop: set<string>)
    ensures m[o.name := o.values] - drop == if o.name in drop then m - drop else (m - drop)[o.name := o.values]
  {}

  lemma OneMoreMeans(drop: set<string>, init: seq<Opt>, o: Opt)
    requires Meaning(Except(drop, init)) == Meaning(init) - drop
    ensures Meaning(Except(drop, init + [o])) == Meaning(init + [o]) - drop
  {
    ExceptLast(drop, init, o);
    MeaningOfLast(init, o);
    MeaningOfLast(Except(drop, init), o);
    MinusAfterUpdate(Meaning(init), o, drop);
  }

  lemma OccurrencesThree(name: string, a: Opt, b: Opt, c: Opt)
    requires a.name != b.name && a.name != c.name && b.name != c.name && name in {a.name, b.name, c.name}
    ensures Occurrences(name, [a, b, c]) == 1
  {
    assert [a, b, c][1..] == [b, c] && [b, c][1..] == [c] && [c][1..] == [];
    assert Occurrences(name, [c]) == if c.name == name then 1 else 0;
    assert Occurrences(name, [b, c]) == (if b.name == name then 1 else 0) + Occurrences(name, [c]);
  }

  // Removing options leaves the meaning of the others alone.
  lemma {:induction false} ExceptMeans(drop: set<string>, opts: seq<Opt>)
    ensures Meaning(Except(drop, opts)) == Meaning(opts) - drop
  {
    if opts != [] {
      var init, o := opts[..|opts| - 1], opts[|opts| - 1];
      ExceptMeans(drop, init);
      assert opts == init + [o];
      OneMoreMeans(drop, init, o);
    }
  }

  // ------------------------------------------------------------------- decimal numerals

  function Digit(d: nat): char
    requires d < 10
  {
    "0123456789"[d]
  }

  predicate IsNumeral(s: string) {
    forall c | c in s :: '0' <= c <= '9' || c == '-'
  }

  function Digits(n: nat): (s: string)
    ensures s != "" && s[0] != '-' && IsNumeral(s)
  {
    if n < 10 then [Digit(n)] else Digits(n / 10) + [Digit(n % 10)]
  }

  function Str(n: int): (s: string)
    ensures s != "" && IsNumeral(s)
  {
    if n < 0 then "-" + Digits(-n) else Digits(n)
  }

  function DigitsValue(s: string): int {
    if s == "" then 0 else 10 * DigitsValue(s[..|s| - 1]) + (s[|s| - 1] as int - '0' as int)
  }

  function Int(s: string): int {
    if s != "" && s[0] == '-' then -DigitsValue(s[1..]) else DigitsValue(s)
  }

  lemma DigitValue(d: nat)
    requires d < 10
    ensures Digit(d) as int - '0' as int == d
  {}

  lemma {:induction false} DigitsRoundTrip(n: nat)
    ensures DigitsValue(Digits(n)) == n
  {
    DigitValue(n % 10);
    if n < 10 {
      assert Digits(n)[..0] == "";
    } else {
      DigitsRoundTrip(n / 10);
      assert Digits(n)[..|Digits(n)| - 1] == Digits(n / 10);
    }
  }

  lemma StrRoundTrip(n: int)
    ensures Int(Str(n)) == n
  {
    DigitsRoundTrip(if n < 0 then -n else n);
    if n < 0 {
      assert Str(n)[1..] == Digits(-n);
    }
  }

  // " ".join(argv)
  function Join(argv: seq<string>): string {
    if argv == [] then "" else if |argv| == 1 then argv[0] else argv[0] + " " + Join(argv[1..])
  }
}
