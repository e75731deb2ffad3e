/** Sharded weights: shard names must number 1..N, and the index must say of every tensor exactly which
    shard holds it. */
module ShardIndex {
  import opened Contract
  import opened Safetensors

  // ---- Shard names ----

  datatype Shard = Shard(ordinal: nat, total: nat)

  predicate IsDigit(c: char) {
    '0' <= c <= '9'
  }

  predicate AllDigits(s: string) {
    s != "" && forall i :: 0 <= i < |s| ==> IsDigit(s[i])
  }

  function LeadingDigits(s: string): (n: nat)
    ensures n <= |s| && (n < |s| ==> !IsDigit(s[n])) && forall i :: 0 <= i < n ==> IsDigit(s[i])
  {
    if s == "" || !IsDigit(s[0]) then 0 else 1 + LeadingDigits(s[1..])
  }

  function Number(s: string): nat
    requires forall i :: 0 <= i < |s| ==> IsDigit(s[i])
  {
    if s == "" then 0
    else
      assert IsDigit(s[|s| - 1]);
      10 * Number(s[..|s| - 1]) + (s[|s| - 1] as int - '0' as int)
  }

  /** `<digits>.safetensors` */
  function ParseTotal(b: string): Option<nat> {
    var m := LeadingDigits(b);
    if m == 0 || b[m..] != ".safetensors" then None else Some(Number(b[..m]))
  }

  /** `model-<digits>-of-<digits>.safetensors`, leading zeros allowed. */
  function ParseShard(name: string): Option<Shard> {
    if !("model-" <= name) then None
    else
      var a := name[6..];
      var n := LeadingDigits(a);
      if n == 0 || !("-of-" <= a[n..]) then None
      else
        var total := ParseTotal(a[n..][4..]);
        if total.None? then None else Some(Shard(Number(a[..n]), total.value))
  }

  lemma {:induction false} LeadingDigitsOf(digits: string, rest: string)
    requires (forall i :: 0 <= i < |digits| ==> IsDigit(digits[i])) && (rest == "" || !IsDigit(rest[0]))
    ensures LeadingDigits(digits + rest) == |digits|
  {
    if digits == "" {
      assert digits + rest == rest;
    } else {
      LeadingDigitsOf(digits[1..], rest);
      assert (digits + rest)[1..] == digits[1..] + rest;
    }
  }

  function ShardName(a: string, b: string): string {
    "model-" + (a + ("-of-" + (b + ".safetensors")))
  }

  lemma Split(x: string, y: string)
    ensures (x + y)[|x|..] == y && (x + y)[..|x|] == x && x <= x + y
  {
  }

  lemma ParsesTotals(b: string, digits: string)
    requires AllDigits(digits) && b == digits + ".safetensors"
    ensures ParseTotal(b) == Some(Number(digits))
  {
    LeadingDigitsOf(digits, ".safetensors");
    Split(digits, ".safetensors");
  }

  lemma ParsesShardNames(a: string, b: string)
    requires AllDigits(a) && AllDigits(b)
    ensures ParseShard(ShardName(a, b)) == Some(Shard(Number(a), Number(b)))
  {
    var rest := b + ".safetensors";
    ParsesTotals(rest, b);
    ParsesAfterPrefix(a, rest);
  }

  lemma ParsesAfterPrefix(a: string, rest: string)
    requires AllDigits(a) && ParseTotal(rest).Some?
    ensures ParseShard("model-" + (a + ("-of-" + rest))) == Some(Shard(Number(a), ParseTotal(rest).value))
  {
    var tail := "-of-" + rest;
    Split("model-", a + tail);
    LeadingDigitsOf(a, tail);
    Split(a, tail);
    Split("-of-", rest);
  }

  lemma JoinTotal(b: string) returns (digits: string)
    requires ParseTotal(b).Some?
    ensures AllDigits(digits) && b == digits + ".safetensors"
  {
    digits := b[..LeadingDigits(b)];
    assert b == digits + b[LeadingDigits(b)..];
  }

  lemma JoinPrefix(s: string, prefix: string)
    requires prefix <= s
    ensures s == prefix + s[|prefix|..]
  {
  }

  lemma TailOf(a: string) returns (x: string, y: string)
    requires var n := LeadingDigits(a); n != 0 && "-of-" <= a[n..] && ParseTotal(a[n..][4..]).Some?
    ensures AllDigits(x) && AllDigits(y) && a == x + ("-of-" + (y + ".safetensors"))
  {
    var n := LeadingDigits(a);
    x := a[..n];
    JoinPrefix(a, x);
    JoinPrefix(a[n..], "-of-");
    y := JoinTotal(a[n..][4..]);
  }

  lemma ShardNameOf(name: string) returns (x: string, y: string)
    requires ParseShard(name).Some?
    ensures AllDigits(x) && AllDigits(y) && name == ShardName(x, y)
  {
    JoinPrefix(name, "model-");
    x, y := TailOf(name[6..]);
  }

  /** The parser reads exactly the names of the required form. */
  lemma ParsesExactlyShardNames(name: string)
    ensures ParseShard(name).Some? <==> exists a, b :: AllDigits(a) && AllDigits(b) && name == ShardName(a, b)
  {
    if ParseShard(name).Some? {
      var a, b := ShardNameOf(name);
    }
    if a, b :| AllDigits(a) && AllDigits(b) && name == ShardName(a, b) {
      ParsesShardNames(a, b);
    }
  }

  predicate AllParse(names: set<string>) {
    forall name <- names :: ParseShard(name).Some?
  }

  function OrdinalOf(name: string): nat {
    if ParseShard(name).Some? then ParseShard(name).value.ordinal else 0
  }

  function TotalOf(name: string): nat {
    if ParseShard(name).Some? then ParseShard(name).value.total else 0
  }

  function Image(f: string -> nat, names: set<string>): set<nat> {
    set name | name in names :: f(name)
  }

  function OneTo(n: nat): (s: set<nat>)
    ensures forall k: nat :: k in s <==> 1 <= k <= n
    ensures |s| == n
  {
    if n == 0 then {} else OneTo(n - 1) + {n}
  }

  ghost predicate Injective(f: string -> nat, names: set<string>) {
    forall a <- names, b <- names :: f(a) == f(b) ==> a == b
  }

  /** For some N at least 1, all names say "of N" and each of 1..N is the number of exactly one name. */
  ghost predicate CompleteSequence(names: set<string>) {
    AllParse(names) && exists n: nat :: 1 <= n && NumberedUpTo(names, n)
  }

  ghost predicate NumberedUpTo(names: set<string>, n: nat) {
    && (forall name <- names :: TotalOf(name) == n && 1 <= OrdinalOf(name) <= n)
    && Injective(OrdinalOf, names)
    && (forall k: nat :: 1 <= k <= n ==> k in Image(OrdinalOf, names))
  }

  lemma {:induction false} ImageIsNoLarger(f: string -> nat, names: set<string>)
    ensures |Image(f, names)| <= |names|
  {
    if names != {} {
      var name :| name in names;
      ImageIsNoLarger(f, names - {name});
      assert Image(f, names) == Image(f, names - {name}) + {f(name)};
    }
  }

  lemma {:induction false} InjectiveKeepsSize(f: string -> nat, names: set<string>)
    requires Injective(f, names)
    ensures |Image(f, names)| == |names|
  {
    if names != {} {
      var name :| name in names;
      InjectiveKeepsSize(f, names - {name});
      assert Image(f, names) == Image(f, names - {name}) + {f(name)};
    }
  }

  /** No two names share a number exactly when there are as many numbers as names. */
  lemma SizeDecidesInjectivity(f: string -> nat, names: set<string>)
    ensures Injective(f, names) <==> |Image(f, names)| == |names|
  {
    if Injective(f, names) {
      InjectiveKeepsSize(f, names);
    } else {
      var a, b :| a in names && b in names && f(a) == f(b) && a != b;
      ImageIsNoLarger(f, names - {a});
      assert b in names - {a};
      assert Image(f, names) == Image(f, names - {a});
    }
  }

  // ---- Names in decimal ----

  function Digit(d: nat): char
    requires d < 10
  {
    "0123456789"[d]
  }

  function Decimal(n: nat): string {
    if n < 10 then [Digit(n)] else Decimal(n / 10) + [Digit(n % 10)]
  }

  function Zeros(z: nat): string {
    seq(z, _ => '0')
  }

  /** At least five digits, as the shards of a model are named. */
  function Padded(n: nat): string {
    if |Decimal(n)| < 5 then Zeros(5 - |Decimal(n)|) + Decimal(n) else Decimal(n)
  }

  function PaddedName(k: nat, n: nat): string {
    "model-" + (Padded(k) + ("-of-" + (Padded(n) + ".safetensors")))
  }

  lemma DigitFacts(d: nat)
    requires d < 10
    ensures IsDigit(Digit(d)) && Digit(d) as int == '0' as int + d
  {
  }

  lemma {:induction false} DecimalIsRead(n: nat)
    ensures AllDigits(Decimal(n)) && Number(Decimal(n)) == n
  {
    if n < 10 {
      DigitFacts(n);
      assert Decimal(n)[..0] == "";
    } else {
      DecimalIsRead(n / 10);
      DigitFacts(n % 10);
      assert Decimal(n)[..|Decimal(n)| - 1] == Decimal(n / 10);
    }
  }

  lemma {:induction false} LeadingZerosDoNotCount(z: nat, digits: string)
    requires forall i :: 0 <= i < |digits| ==> IsDigit(digits[i])
    ensures Number(Zeros(z) + digits) == Number(digits)
  {
    if digits != "" {
      var init := digits[..|digits| - 1];
      LeadingZerosDoNotCount(z, init);
      assert (Zeros(z) + digits)[..z + |digits| - 1] == Zeros(z) + init;
    } else if z > 0 {
      LeadingZerosDoNotCount(z - 1, "");
      assert Zeros(z) + "" == Zeros(z) && Zeros(z)[..z - 1] == Zeros(z - 1) && Zeros(z - 1) + "" == Zeros(z - 1);
    } else {
      assert Zeros(z) + digits == "";
    }
  }

  lemma PaddedIsRead(n: nat)
    ensures AllDigits(Padded(n)) && Number(Padded(n)) == n
  {
    DecimalIsRead(n);
    LeadingZerosDoNotCount(5 - (if |Decimal(n)| < 5 then |Decimal(n)| else 5), Decimal(n));
  }

  /** The name of the k-th of n shards, in decimal with leading zeros, is read as exactly that. */
  lemma PaddedNamesAreRead(k: nat, n: nat)
    ensures ParseShard(PaddedName(k, n)) == Some(Shard(k, n))
  {
    PaddedIsRead(k);
    PaddedIsRead(n);
    ParsesShardNames(Padded(k), Padded(n));
  }

  function PaddedNames(n: nat): set<string> {
    set k: nat | 1 <= k <= n :: PaddedName(k, n)
  }

  lemma DecimalGrows(n: nat, d: nat)
    requires n > 0 && d < 10
    ensures Decimal(10 * n + d) == Decimal(n) + [Digit(d)]
  {
    assert (10 * n + d) / 10 == n && (10 * n + d) % 10 == d;
  }

  lemma OneMoreZero(z: nat, digits: string)
    ensures Zeros(z + 1) + digits == Zeros(z) + ("0" + digits)
  {
  }

  lemma NumberOfOneMore(init: string, d: nat)
    requires (forall i :: 0 <= i < |init| ==> IsDigit(init[i])) && d < 10
    ensures AllDigits(init + [Digit(d)]) && Number(init + [Digit(d)]) == 10 * Number(init) + d
  {
    DigitFacts(d);
    assert (init + [Digit(d)])[..|init|] == init;
  }

  /** Conversely every number is written as its decimal digits after some zeros, so no other name says the same. */
  lemma {:induction false} OnlyDecimalIsRead(digits: string) returns (z: nat)
    requires AllDigits(digits)
    ensures digits == Zeros(z) + Decimal(Number(digits))
  {
    var (init, last) := (digits[..|digits| - 1], digits[|digits| - 1]);
    assert IsDigit(last);
    var d := last as int - '0' as int;
    assert digits == init + [Digit(d)];
    NumberOfOneMore(init, d);
    z := 0;
    if init != "" {
      z := OnlyDecimalIsRead(init);
      z := OneDigitMore(init, z, Number(init), d);
    } else {
      assert Zeros(0) + Decimal(d) == [Digit(d)];
    }
  }

  lemma OneDigitMore(init: string, z: nat, n: nat, d: nat) returns (z': nat)
    requires init == Zeros(z) + Decimal(n) && d < 10
    ensures init + [Digit(d)] == Zeros(z') + Decimal(10 * n + d)
  {
    if n == 0 {
      z' := z + 1;
      OneMoreZero(z, Decimal(d));
      assert Decimal(0) == "0" && init + [Digit(d)] == Zeros(z) + ("0" + Decimal(d));
    } else {
      z' := z;
      DecimalGrows(n, d);
      assert init + [Digit(d)] == Zeros(z) + (Decimal(n) + [Digit(d)]);
    }
  }

  /** A set of shards that all say "of n" but of which none is the k-th is not complete. */
  lemma MissingShardIsMissed(names: set<string>, k: nat, n: nat)
    requires 1 <= k <= n && forall name <- names :: TotalOf(name) == n && OrdinalOf(name) != k
    ensures !CompleteSequence(names)
  {
    forall m: nat | 1 <= m ensures !NumberedUpTo(names, m) {
      if names == {} {
        assert 1 !in Image(OrdinalOf, names);
      } else {
        var name :| name in names;
        assert TotalOf(name) == n;
        assert k !in Image(OrdinalOf, names);
      }
    }
  }

  lemma ExtraShardIsNoticed(names: set<string>, name: string)
    requires name in names && OrdinalOf(name) > TotalOf(name)
    ensures !CompleteSequence(names)
  {
  }

  /** The shards of a model of any size, named as usual, are a complete sequence; with one of them missing, or
      with the one more that a larger model would have, they are not. */
  lemma PaddedNamesAreComplete(n: nat, k: nat)
    requires 1 <= k <= n
    ensures CompleteSequence(PaddedNames(n))
    ensures !CompleteSequence(PaddedNames(n) - {PaddedName(k, n)})
    ensures !CompleteSequence(PaddedNames(n) + {PaddedName(n + 1, n)})
  {
    forall i: nat | 1 <= i <= n + 1 ensures ParseShard(PaddedName(i, n)) == Some(Shard(i, n)) {
      PaddedNamesAreRead(i, n);
    }
    PaddedNamesAreNumbered(n);
    MissingShardIsMissed(PaddedNames(n) - {PaddedName(k, n)}, k, n);
    ExtraShardIsNoticed(PaddedNames(n) + {PaddedName(n + 1, n)}, PaddedName(n + 1, n));
  }

  lemma PaddedNamesAreNumbered(n: nat)
    requires forall k: nat :: 1 <= k <= n ==> ParseShard(PaddedName(k, n)) == Some(Shard(k, n))
    requires 1 <= n
    ensures CompleteSequence(PaddedNames(n))
  {
    var names := PaddedNames(n);
    forall k: nat | 1 <= k <= n ensures k in Image(OrdinalOf, names) {
      assert PaddedName(k, n) in names && OrdinalOf(PaddedName(k, n)) == k;
    }
    assert NumberedUpTo(names, n);
  }

  /** Counting decides it: the program compares sizes and the set of numbers, nothing else. */
  lemma CountingDecidesTheSequence(names: set<string>, n: nat)
    requires AllParse(names) && Image(TotalOf, names) == {n} && n != 0
    ensures CompleteSequence(names)
            <==> |names| == n && |Image(OrdinalOf, names)| == |names| && Image(OrdinalOf, names) == OneTo(n)
  {
    SizeDecidesInjectivity(OrdinalOf, names);
    if CompleteSequence(names) {
      var m: nat :| 1 <= m && NumberedUpTo(names, m);
      TotalIsUnique(names, m);
      NumberedImage(names, m);
    }
    if Image(OrdinalOf, names) == OneTo(n) && Injective(OrdinalOf, names) {
      ImageNumbers(names, n);
    }
  }

  lemma NumberedImage(names: set<string>, n: nat)
    requires NumberedUpTo(names, n)
    ensures Image(OrdinalOf, names) == OneTo(n)
  {
  }

  lemma ImageNumbers(names: set<string>, n: nat)
    requires Image(TotalOf, names) == {n} && Image(OrdinalOf, names) == OneTo(n) && Injective(OrdinalOf, names)
    ensures NumberedUpTo(names, n)
  {
    forall name <- names ensures TotalOf(name) == n && 1 <= OrdinalOf(name) <= n {
      assert TotalOf(name) in Image(TotalOf, names);
      assert OrdinalOf(name) in Image(OrdinalOf, names);
    }
  }

  lemma TotalIsUnique(names: set<string>, n: nat)
    requires 1 <= n && NumberedUpTo(names, n)
    ensures Image(TotalOf, names) == {n}
  {
    assert 1 in Image(OrdinalOf, names);
    var name :| name in names && OrdinalOf(name) == 1;
    assert TotalOf(name) in Image(TotalOf, names);
  }

  lemma ImageExtends(f: string -> nat, names: set<string>, name: string)
    ensures Image(f, names + {name}) == Image(f, names) + {f(name)}
  {
  }

  /** Read every name; the numbers and totals found, or failure on the first name of another form. */
  method ParseAll(names: set<string>) returns (ok: bool, ordinals: set<nat>, totals: set<nat>)
    ensures ok <==> AllParse(names)
    ensures ok ==> ordinals == Image(OrdinalOf, names) && totals == Image(TotalOf, names)
  {
    ordinals, totals := {}, {};
    var todo := names;
    ghost var done := {};
    while todo != {}
      invariant done + todo == names && AllParse(done)
      invariant ordinals == Image(OrdinalOf, done) && totals == Image(TotalOf, done)
      decreases todo
    {
      var name :| name in todo;
      var parsed := ParseShard(name);
      if parsed.None? { return false, {}, {}; }
      ordinals := ordinals + {parsed.value.ordinal};
      totals := totals + {parsed.value.total};
      ImageExtends(OrdinalOf, done, name);
      ImageExtends(TotalOf, done, name);
      done := done + {name};
      todo := todo - {name};
    }
    assert done == names;
    ok := true;
  }

  method ValidateShardSequence(names: set<string>) returns (ok: bool)
    ensures ok <==> CompleteSequence(names)
  {
    var parsed, ordinals, totals := ParseAll(names);
    if !parsed { return false; }
    if CompleteSequence(names) {
      ghost var n: nat :| 1 <= n && NumberedUpTo(names, n);
      TotalIsUnique(names, n);
    }
    if |totals| != 1 || 0 in totals { return false; }
    var total: nat :| total in totals;
    SingletonIs(totals, total);
    CountingDecidesTheSequence(names, total);
    ok := |names| == total && |ordinals| == |names| && ordinals == OneTo(total);
  }

  lemma SingletonIs<T>(s: set<T>, x: T)
    requires |s| == 1 && x in s
    ensures s == {x}
  {
    assert |s - {x}| == 0;
  }

  // ---- The index ----

  type Index = map<string, string>

  type TensorsByShard = map<string, set<string>>

  /** The index and the shards agree on every tensor and every shard. */
  ghost predicate SameOwnership(index: Index, shards: TensorsByShard) {
    forall t, s :: AgreesOn(index, shards, t, s)
  }

  predicate AgreesOn(index: Index, shards: TensorsByShard, t: string, s: string) {
    (t in index && index[t] == s) <==> (s in shards && t in shards[s])
  }

  ghost predicate OwnersOf(owner: Index, shards: TensorsByShard, names: set<string>) {
    && (forall t <- owner :: owner[t] in names && owner[t] in shards && t in shards[owner[t]])
    && (forall s <- names, t | s in shards && t in shards[s] :: t in owner)
  }

  ghost predicate SoleOwners(owner: Index, shards: TensorsByShard, names: set<string>) {
    forall s <- names, t | s in shards && t in shards[s] :: t in owner && owner[t] == s
  }

  /** Enter one shard's tensors, keeping the first owner of each and noting any second one. */
  method AddShard(owner: Index, s: string, tensors: set<string>) returns (owner': Index, duplicate: bool)
    requires s !in owner.Values
    ensures owner'.Keys == owner.Keys + tensors
    ensures forall t <- owner' :: owner'[t] == if t in owner then owner[t] else s
    ensures duplicate <==> owner.Keys * tensors != {}
  {
    owner' := owner;
    duplicate := false;
    var todo := tensors;
    while todo != {}
      invariant todo <= tensors
      invariant owner'.Keys == owner.Keys + (tensors - todo)
      invariant forall t <- owner' :: owner'[t] == if t in owner then owner[t] else s
      invariant duplicate <==> owner.Keys * (tensors - todo) != {}
      decreases todo
    {
      var t :| t in todo;
      if t in owner' {
        assert t in owner && owner[t] in owner.Values;
        assert t in owner.Keys * (tensors - (todo - {t}));
        if owner'[t] != s { duplicate := true; }
      } else {
        owner' := owner'[t := s];
        assert owner.Keys * (tensors - (todo - {t})) == owner.Keys * (tensors - todo);
      }
      todo := todo - {t};
    }
  }

  method ValidateIndexTensorMapping(index: Index, shards: TensorsByShard) returns (ok: bool)
    ensures ok <==> SameOwnership(index, shards)
  {
    var owner: Index := map[];
    var duplicates := false;
    var todo := shards.Keys;
    ghost var done := {};
    while todo != {}
      invariant done + todo == shards.Keys && done !! todo
      invariant OwnersOf(owner, shards, done)
      invariant !duplicates <==> SoleOwners(owner, shards, done)
      decreases todo
    {
      var s :| s in todo;
      assert s !in owner.Values;
      var owner', duplicate := AddShard(owner, s, shards[s]);
      AddedShard(owner, owner', shards, done, s);
      owner := owner';
      duplicates := duplicates || duplicate;
      done := done + {s};
      todo := todo - {s};
    }
    assert done == shards.Keys;
    if duplicates {
      assert !SameOwnership(index, shards) by { DuplicatesDisagree(index, owner, shards); }
      return false;
    }
    assert owner == index <==> SameOwnership(index, shards) by { OwnersDecide(index, owner, shards); }
    if index.Keys - owner.Keys != {} {
      return false;
    }
    if owner.Keys - index.Keys != {} {
      return false;
    }
    assert index.Keys == owner.Keys;
    ok := forall t <- index :: owner[t] == index[t];
  }

  lemma AddedShard(owner: Index, owner': Index, shards: TensorsByShard, done: set<string>, s: string)
    requires s in shards && s !in done && OwnersOf(owner, shards, done)
    requires owner'.Keys == owner.Keys + shards[s]
    requires forall t <- owner' :: owner'[t] == if t in owner then owner[t] else s
    ensures OwnersOf(owner', shards, done + {s})
    ensures SoleOwners(owner', shards, done + {s})
            <==> SoleOwners(owner, shards, done) && owner.Keys * shards[s] == {}
  {
    if SoleOwners(owner', shards, done + {s}) {
      forall t ensures t !in owner.Keys * shards[s] {
        if t in shards[s] { assert owner'[t] == s; }
      }
      assert owner.Keys * shards[s] == {};
      forall p <- done, t | p in shards && t in shards[p] ensures owner[t] == p {
        assert p in done + {s} && owner'[t] == p;
      }
    } else if owner.Keys * shards[s] == {} {
      var p, t :| p in done + {s} && p in shards && t in shards[p] && owner'[t] != p;
      assert t !in owner.Keys * shards[s];
    }
  }

  lemma DuplicatesDisagree(index: Index, owner: Index, shards: TensorsByShard)
    requires OwnersOf(owner, shards, shards.Keys) && !SoleOwners(owner, shards, shards.Keys)
    ensures !SameOwnership(index, shards)
  {
    var s, t :| s in shards && t in shards[s] && owner[t] != s;
    var first := owner[t];
    assert first in shards && t in shards[first];
    assert !(AgreesOn(index, shards, t, s) && AgreesOn(index, shards, t, first));
  }

  lemma OwnersDecide(index: Index, owner: Index, shards: TensorsByShard)
    requires OwnersOf(owner, shards, shards.Keys) && SoleOwners(owner, shards, shards.Keys)
    ensures owner == index <==> SameOwnership(index, shards)
  {
    assert SameOwnership(owner, shards);
    if SameOwnership(index, shards) {
      forall t ensures t in owner <==> t in index {
        if t in owner { assert AgreesOn(index, shards, t, owner[t]) && AgreesOn(owner, shards, t, owner[t]); }
        if t in index { assert AgreesOn(index, shards, t, index[t]) && AgreesOn(owner, shards, t, index[t]); }
      }
      forall t <- owner ensures owner[t] == index[t] {
        assert AgreesOn(index, shards, t, owner[t]) && AgreesOn(owner, shards, t, owner[t]);
      }
    }
  }

  // ---- All weights of a model ----

  const SINGLE := "model.safetensors"

  /** The index file: missing, not usable, or a map. */
  datatype IndexFile = NoIndex | BadIndex | IndexFile(weightMap: Index)

  function TensorsOf(files: map<string, File>): TensorsByShard
    requires forall name <- files :: files[name].header.Some?
  {
    map name | name in files :: TensorKeys(files[name].header.value)
  }

  function ParametersOf(f: File): nat
    requires Acceptable(f)
  {
    Parameters(f.header.value, DataSize(f))
  }

  ghost predicate AllAcceptable(files: map<string, File>) {
    forall name <- files :: Acceptable(files[name])
  }

  /** The parameter count of each file. */
  function CountsOf(files: map<string, File>): map<string, nat>
    requires AllAcceptable(files)
  {
    map name | name in files :: ParametersOf(files[name])
  }

  ghost function Sum(counts: map<string, nat>): nat {
    if counts == map[] then 0
    else
      var name :| name in counts;
      counts[name] + Sum(counts - {name})
  }

  ghost function TotalParameters(files: map<string, File>): nat
    requires AllAcceptable(files)
  {
    Sum(CountsOf(files))
  }

  /** The total does not depend on the order in which the shards are read. */
  lemma {:induction false} TotalInAnyOrder(counts: map<string, nat>, name: string)
    requires name in counts
    ensures Sum(counts) == counts[name] + Sum(counts - {name})
    decreases |counts|
  {
    var first :| first in counts && Sum(counts) == counts[first] + Sum(counts - {first});
    if first != name {
      TotalInAnyOrder(counts - {first}, name);
      TotalInAnyOrder(counts - {name}, first);
      assert counts - {first} - {name} == counts - {name} - {first};
    }
  }

  lemma {:induction false} TotalsGrow(some: map<string, nat>, counts: map<string, nat>)
    requires some.Keys <= counts.Keys && forall name <- some :: some[name] == counts[name]
    ensures Sum(some) <= Sum(counts)
    decreases |counts|
  {
    if counts.Keys - some.Keys != {} {
      var name :| name in counts.Keys - some.Keys;
      TotalInAnyOrder(counts, name);
      TotalsGrow(some, counts - {name});
    } else {
      assert forall name <- counts :: name !in counts.Keys - some.Keys;
      assert some == counts;
    }
  }

  ghost predicate ValidSharded(files: map<string, File>, index: Index) {
    && index != map[] && "" !in index.Keys && "" !in index.Values
    && CompleteSequence(index.Values) && files.Keys == index.Values
    && AllAcceptable(files) && TotalParameters(files) <= MAX_PARAMETER_COUNT
    && SameOwnership(index, TensorsOf(files))
  }

  /** Either one file holding everything and no index, or a complete, consistent set of shards. */
  ghost predicate ValidWeights(files: map<string, File>, index: IndexFile) {
    if SINGLE in files then index.NoIndex? && files.Keys == {SINGLE} && Acceptable(files[SINGLE])
    else index.IndexFile? && ValidSharded(files, index.weightMap)
  }

  method SelectShards(files: map<string, File>, index: Index) returns (ok: bool)
    ensures ok <==> && index != map[] && "" !in index.Keys && "" !in index.Values
                    && CompleteSequence(index.Values) && files.Keys == index.Values
  {
    if index == map[] || "" in index.Keys || "" in index.Values { return false; }
    var referenced := index.Values;
    var complete := ValidateShardSequence(referenced);
    if !complete { return false; }
    var actual := set name | name in files && ParseShard(name).Some?;
    if files.Keys - actual != {} {
      assert exists name :: name in files && ParseShard(name).None?;
      return false;
    }
    assert files.Keys == actual by {
      assert forall name <- files.Keys :: name !in files.Keys - actual;
    }
    ok := referenced - actual == {} && actual - referenced == {};
    assert ok <==> referenced == actual;
  }

  /** What is known of the shards read so far. */
  ghost predicate ReadSoFar(files: map<string, File>, counts: map<string, nat>, tensors: TensorsByShard) {
    && tensors.Keys == counts.Keys <= files.Keys
    && forall name <- counts ::
         Acceptable(files[name]) && counts[name] == ParametersOf(files[name]) && tensors[name] == TensorKeys(files[name].header.value)
  }

  lemma CountAnother(counts: map<string, nat>, name: string, n: nat)
    requires name !in counts
    ensures Sum(counts[name := n]) == Sum(counts) + n
  {
    TotalInAnyOrder(counts[name := n], name);
    assert counts[name := n] - {name} == counts;
  }

  lemma ReadAnother(files: map<string, File>, counts: map<string, nat>, tensors: TensorsByShard, name: string, x: Summary)
    requires ReadSoFar(files, counts, tensors) && name in files && Acceptable(files[name])
    requires x.parameterCount == ParametersOf(files[name]) && x.tensorNames == TensorKeys(files[name].header.value)
    ensures ReadSoFar(files, counts[name := x.parameterCount], tensors[name := x.tensorNames])
  {
  }

  lemma TooManySoFar(files: map<string, File>, counts: map<string, nat>, tensors: TensorsByShard)
    requires ReadSoFar(files, counts, tensors) && Sum(counts) > MAX_PARAMETER_COUNT
    ensures !(AllAcceptable(files) && TotalParameters(files) <= MAX_PARAMETER_COUNT)
  {
    if AllAcceptable(files) { TotalsGrow(counts, CountsOf(files)); }
  }

  lemma AllRead(files: map<string, File>, counts: map<string, nat>, tensors: TensorsByShard)
    requires ReadSoFar(files, counts, tensors) && counts.Keys == files.Keys
    ensures AllAcceptable(files) && CountsOf(files) == counts && TensorsOf(files) == tensors
  {
  }

  /** Check every shard file and add up the parameters. */
  method ReadShards(files: map<string, File>) returns (total: Option<nat>, tensors: TensorsByShard)
    ensures total.Some? <==> AllAcceptable(files) && TotalParameters(files) <= MAX_PARAMETER_COUNT
    ensures total.Some? ==> total.value == TotalParameters(files) && tensors == TensorsOf(files)
  {
    var count: nat := 0;
    tensors := map[];
    var todo := files.Keys;
    ghost var counts: map<string, nat> := map[];
    while todo != {}
      invariant todo <= files.Keys && counts.Keys == files.Keys - todo
      invariant ReadSoFar(files, counts, tensors) && count == Sum(counts) <= MAX_PARAMETER_COUNT
      decreases todo
    {
      var name :| name in todo;
      var summary := ValidateSafetensors(files[name]);
      if summary.None? { return None, tensors; }
      CountAnother(counts, name, summary.value.parameterCount);
      ReadAnother(files, counts, tensors, name, summary.value);
      counts := counts[name := summary.value.parameterCount];
      count := count + summary.value.parameterCount;
      tensors := tensors[name := summary.value.tensorNames];
      if count > MAX_PARAMETER_COUNT {
        TooManySoFar(files, counts, tensors);
        return None, tensors;
      }
      todo := todo - {name};
    }
    AllRead(files, counts, tensors);
    total := Some(count);
  }

  /** The weight check of a model directory, given all its safetensors files and its index file. */
  method ValidateWeights(files: map<string, File>, index: IndexFile) returns (parameters: Option<nat>)
    ensures parameters.Some? <==> ValidWeights(files, index)
    ensures parameters.Some? ==>
      AllAcceptable(files) && parameters.value == TotalParameters(files)
  {
    if SINGLE in files {
      if !index.NoIndex? || files.Keys - {SINGLE} != {} {
        return None;
      }
      assert files.Keys == {SINGLE};
      var total, _ := ReadShards(files);
      OneFile(files);
      return total;
    }
    if !index.IndexFile? { return None; }
    var selected := SelectShards(files, index.weightMap);
    if !selected { return None; }
    var total, tensors := ReadShards(files);
    if total.None? { return None; }
    var consistent := ValidateIndexTensorMapping(index.weightMap, tensors);
    parameters := if consistent then total else None;
  }

  lemma OneFile(files: map<string, File>)
    requires files.Keys == {SINGLE}
    ensures AllAcceptable(files) <==> Acceptable(files[SINGLE])
    ensures Acceptable(files[SINGLE]) ==> TotalParameters(files) == ParametersOf(files[SINGLE]) <= MAX_PARAMETER_COUNT
  {
    assert SINGLE in files;
    if Acceptable(files[SINGLE]) {
      assert AllAcceptable(files);
      TotalInAnyOrder(CountsOf(files), SINGLE);
      assert CountsOf(files) - {SINGLE} == map[];
    }
  }

  // ---- Which sets of files are accepted ----

  /** One acceptable file alone is a model; with an index beside it, or another weight file, it is not. */
  lemma OneFileIsAModel(f: File, index: IndexFile, name: string, other: File)
    requires name != "model.safetensors"
    ensures ValidWeights(map["model.safetensors" := f], NoIndex) <==> Acceptable(f)
    ensures index != NoIndex ==> !ValidWeights(map["model.safetensors" := f], index)
    ensures !ValidWeights(map["model.safetensors" := f, name := other], index)
  {
    assert name in map["model.safetensors" := f, name := other].Keys;
  }

  /** The index says of this tensor and this shard whether the one is in the other. */
  predicate SaidRightly(files: map<string, File>, index: Index, name: string, t: string)
    requires name in files && files[name].header.Some?
  {
    t in TensorKeys(files[name].header.value) <==> t in index && index[t] == name
  }

  /** So of every tensor and shard, and it names no other file. */
  ghost predicate SaidRightlyOfAll(files: map<string, File>, index: Index)
    requires forall name <- files :: files[name].header.Some?
  {
    (forall t <- index :: index[t] in files) && forall name <- files, t :: SaidRightly(files, index, name, t)
  }

  /** Nothing is a model but the single file by itself, or a complete sequence of shards that are just the files the
      index names; so one shard short of any number is none. */
  lemma ModelsAreComplete(files: map<string, File>, index: IndexFile, k: nat, n: nat)
    ensures ValidWeights(files, index) ==>
      || (files.Keys == {"model.safetensors"} && index == NoIndex)
      || (&& index.IndexFile? && files.Keys == index.weightMap.Values && files != map[] && CompleteSequence(files.Keys)
          && "model.safetensors" !in files)
    ensures 1 <= k <= n && files.Keys == PaddedNames(n) - {PaddedName(k, n)} ==> !ValidWeights(files, index)
  {
    NoShardIsTheSingleFile(n);
    if 1 <= k <= n {
      PaddedNamesAreComplete(n, k);
    }
  }

  /** Shards 1 to n are a model exactly when each is acceptable, together they have no more parameters than can be
      counted, and the index says of every tensor, by a name that is not empty, the one shard that holds it, and of
      nothing else.  Without a usable index they are none. */
  lemma ShardsAreAModel(files: map<string, File>, index: Index, n: nat)
    requires 1 <= n && files.Keys == PaddedNames(n)
    ensures ValidWeights(files, IndexFile(index)) <==>
      && (forall name <- files :: Acceptable(files[name])) && TotalParameters(files) <= 9_223_372_036_854_775_807
      && "" !in index && SaidRightlyOfAll(files, index)
    ensures !ValidWeights(files, NoIndex) && !ValidWeights(files, BadIndex)
  {
    NoShardIsTheSingleFile(n);
    PaddedNamesAreComplete(n, 1);
    assert PaddedName(1, n) in files;
    CompleteShardsAreValid(files, index);
  }

  lemma CompleteShardsAreValid(files: map<string, File>, index: Index)
    requires files != map[] && "" !in files && CompleteSequence(files.Keys)
    ensures ValidSharded(files, index) <==>
      && AllAcceptable(files) && TotalParameters(files) <= 9_223_372_036_854_775_807
      && "" !in index && SaidRightlyOfAll(files, index)
  {
    if AllAcceptable(files) {
      OwnershipInFull(files, index);
      ReferencesFollow(files, index);
      OwnershipDecides(files, index);
    }
  }

  lemma ReferencesFollow(files: map<string, File>, index: Index)
    requires AllAcceptable(files) && files != map[]
    ensures SameOwnership(index, TensorsOf(files)) ==> index.Values == files.Keys && index != map[]
  {
    OwnershipInFull(files, index);
    if SaidRightlyOfAll(files, index) {
      EveryShardIsReferenced(files, index);
    }
  }

  /** Once ownership settles which files the index names, the rest is what each file says by itself. */
  lemma OwnershipDecides(files: map<string, File>, index: Index)
    requires AllAcceptable(files) && "" !in files && CompleteSequence(files.Keys)
    requires SameOwnership(index, TensorsOf(files)) ==> index.Values == files.Keys && index != map[]
    ensures ValidSharded(files, index) <==>
      "" !in index && TotalParameters(files) <= 9_223_372_036_854_775_807 && SameOwnership(index, TensorsOf(files))
  {
  }

  lemma NoShardIsTheSingleFile(n: nat)
    ensures "model.safetensors" !in PaddedNames(n) && "" !in PaddedNames(n)
  {
    forall k: nat ensures PaddedName(k, n)[5] == '-' && "model.safetensors"[5] == '.' {}
  }

  lemma OwnershipInFull(files: map<string, File>, index: Index)
    requires AllAcceptable(files)
    ensures SameOwnership(index, TensorsOf(files)) <==> SaidRightlyOfAll(files, index)
  {
    var shards := TensorsOf(files);
    if SameOwnership(index, shards) {
      forall t <- index ensures index[t] in files {
        assert AgreesOn(index, shards, t, index[t]);
      }
      forall name <- files, t ensures SaidRightly(files, index, name, t) {
        assert AgreesOn(index, shards, t, name);
      }
    }
    if SaidRightlyOfAll(files, index) {
      forall t, name ensures AgreesOn(index, shards, t, name) {
        if name in files { assert SaidRightly(files, index, name, t); }
      }
    }
  }

  lemma AShardHoldsSomething(f: File)
    requires Acceptable(f)
    ensures TensorKeys(f.header.value) != {}
  {
  }

  lemma EveryShardIsReferenced(files: map<string, File>, index: Index)
    requires AllAcceptable(files) && SaidRightlyOfAll(files, index)
    ensures index.Values == files.Keys && (files != map[] ==> index != map[])
  {
    forall name <- files ensures name in index.Values {
      AShardHoldsSomething(files[name]);
      var t :| t in TensorKeys(files[name].header.value);
      assert SaidRightly(files, index, name, t);
    }
  }
}
