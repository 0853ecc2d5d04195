/** The transform plan: tables made once, then runs on two ping-pong buffers. */
module FftPlan {
  import opened Wrappers
  import opened Arithmetic
  import opened Rings
  import opened Fourier
  import opened Butterflies
  import opened CoefficientFft
  import opened FftKernels
  import opened Bluestein
  import ComplexNumbers

  const MaxIndex: nat := 0xFFFF_FFFF

  /** `next_power_of_two`. */
  function NextPow2(n: nat): (r: nat)
    ensures IsPow2(r) && n <= r && (r == 1 || r < 2 * n)
  {
    if n <= 1 then 1 else 2 * NextPow2((n + 1) / 2)
  }

  function WorkLength(length: nat): (m: nat)
    requires length > 0
    ensures IsPow2(m) && length <= m
    ensures IsPow2(length) ==> m == length
    ensures !IsPow2(length) ==> 2 * length - 1 <= m
  {
    if IsPow2(length) then length else NextPow2(2 * length - 1)
  }

  /** The input as the plan sees it: cut or padded with zeros to the plan's length. */
  function Padded<C(!new)>(f: Ring<C>, x: seq<C>, n: nat): (r: seq<C>)
    ensures |r| == n
  {
    seq(n, (i: nat) requires i < n => if i < |x| then x[i] else f.zero)
  }

  // ----- tables -----

  method MakeTwiddle<C(!new)>(f: Ring<C>, m: nat) returns (table: array<C>)
    requires m > 0
    ensures fresh(table) && IsTwiddle(f, m, table[..])
  {
    var size := if m / 2 > 1 then m / 2 else 1;
    table := new C[size](_ => f.one);
    for k := 0 to size
      invariant forall i: nat :: i < k ==> table[i] == f.root(-1 * i, m)
    {
      table[k] := f.root(-1 * k, m);
    }
  }

  ghost predicate IsChirp<C(!new)>(f: Ring<C>, sign: int, table: seq<C>) {
    forall k: nat :: k < |table| ==> table[k] == Chirp(f, sign, |table|, k)
  }

  /** Both ends of the convolution table up to index `k`; the rest is still zero. */
  ghost predicate PartTable<C(!new)>(f: Ring<C>, sign: int, n: nat, table: seq<C>, k: nat) {
    && 0 < n && k <= n && 2 * n - 1 <= |table|
    && forall i: nat :: i < |table| ==>
      table[i] == if i < k || |table| - i < k then ChirpTable(f, sign, n, |table|)[i] else f.zero
  }

  /** The two ends never meet, so neither write of a round disturbs an earlier one. */
  lemma PartTableNext<C(!new)>(f: Ring<C>, sign: int, n: nat, table: seq<C>, k: nat)
    requires PartTable(f, sign, n, table, k) && k < n
    ensures var v := f.conj(Chirp(f, sign, n, k));
      var first := table[k := v];
      PartTable(f, sign, n, if k != 0 then first[|table| - k := v] else first, k + 1)
  {
  }

  lemma PartTableDone<C(!new)>(f: Ring<C>, sign: int, n: nat, table: seq<C>)
    requires PartTable(f, sign, n, table, n)
    ensures table == ChirpTable(f, sign, n, |table|)
  {
  }

  ghost predicate ChirpedTo<C(!new)>(f: Ring<C>, sign: int, n: nat, chirp: seq<C>, k: nat) {
    && 0 < n == |chirp| && k <= n
    && forall i: nat :: i < k ==> chirp[i] == Chirp(f, sign, n, i)
  }

  lemma ChirpedNext<C(!new)>(f: Ring<C>, sign: int, n: nat, chirp: seq<C>, k: nat)
    requires ChirpedTo(f, sign, n, chirp, k) && k < n
    ensures ChirpedTo(f, sign, n, chirp[k := Chirp(f, sign, n, k)], k + 1)
  {
  }

  method WriteBothEnds<C(!new)>(table: array<C>, k: nat, v: C)
    requires k < table.Length
    modifies table
    ensures var first := old(table[..])[k := v];
      table[..] == if k != 0 then first[table.Length - k := v] else first
  {
    table[k] := v;
    if k != 0 {
      table[table.Length - k] := v;
    }
  }

  method MakeChirp<C(!new)>(f: Ring<C>, sign: int, n: nat, m: nat) returns (chirp: array<C>, table: array<C>)
    requires n > 0 && 2 * n - 1 <= m
    ensures fresh(chirp) && fresh(table) && chirp != table
    ensures chirp.Length == n && IsChirp(f, sign, chirp[..]) && table[..] == ChirpTable(f, sign, n, m)
  {
    chirp := new C[n](_ => f.one);
    table := new C[m](_ => f.zero);
    for k := 0 to n
      invariant ChirpedTo(f, sign, n, chirp[..], k)
      invariant PartTable(f, sign, n, table[..], k)
    {
      PartTableNext(f, sign, n, table[..], k);
      var c := Chirp(f, sign, n, k);
      ChirpedNext(f, sign, n, chirp[..], k);
      chirp[k] := c;
      WriteBothEnds(table, k, f.conj(c));
    }
    PartTableDone(f, sign, n, table[..]);
  }

  // ----- what a run computes -----

  /** The spectrum is what the recursive form computes. */
  lemma SpectrumIsRecursive<C(!new)>(f: Ring<C>, x: seq<C>)
    requires IsRing(f) && IsPow2(|x|)
    ensures FftRecursive(f, -1, x) == Spectrum(f, x)
  {
    forall k: nat | k < |x|
      ensures FftRecursive(f, -1, x)[k] == Spectrum(f, x)[k]
    {
      RecursiveIsDft(f, -1, x, k);
    }
  }

  /** The sense of rotation: forward, an impulse at place one comes out a quarter turn clockwise at index one of four. */
  lemma ForwardTurnsClockwise(cis: ComplexNumbers.Rotation)
    requires ComplexNumbers.IsRotation(cis)
    ensures var f := ComplexNumbers.ComplexRing(cis);
      && Dft(f, -1, Impulse(f, 4, 1), 1) == ComplexNumbers.Complex(0.0, -1.0)
      && Dft(f, 1, Impulse(f, 4, 1), 1) == ComplexNumbers.Complex(0.0, 1.0)
  {
    var f := ComplexNumbers.ComplexRing(cis);
    ComplexNumbers.ComplexIsRing(cis);
    ComplexNumbers.QuarterTurn(cis);
    ImpulseResponse(f, -1, 4, 1, 1);
    ImpulseResponse(f, 1, 4, 1, 1);
  }

  function OrOne<C(!new)>(f: Ring<C>, wanted: bool, n: nat): C {
    if wanted then f.inverse(n) else f.one
  }

  /** Output `k` as a plan must deliver it. */
  ghost function Wanted<C(!new)>(f: Ring<C>, sign: int, x: seq<C>, normalize: bool, k: nat): C {
    f.mul(Dft(f, sign, x, k), OrOne(f, normalize, |x|))
  }

  lemma BackExponent(m: int, i: int)
    ensures 1 * m * i == -(-1) * i * m
  {
  }

  /** Forward, then inverse and normalized, is the identity; for every length whose roots are primitive. */
  lemma TransformInverts<C(!new)>(f: Ring<C>, x: seq<C>, s: seq<C>, i: nat)
    requires IsRing(f) && Invertible(f, |x|) && i < |x| == |s|
    requires forall k: nat :: k < |x| ==> s[k] == Wanted(f, -1, x, false, k)
    ensures Wanted(f, 1, s, true, i) == x[i]
  {
    var n := |x|;
    forall m: nat | m < n
      ensures DftTerm(f, 1, s, i)(m) == Back(f, -1, x, i)(m)
    {
      BackExponent(m, i);
      MulOne(f, Dft(f, -1, x, m));
    }
    SumEq(f, DftTerm(f, 1, s, i), Back(f, -1, x, i), n);
    Inversion(f, -1, x, i);
    ModSmall(i, n);
    Unscale(f, x[i], f.one, n);
    MulOne(f, f.inverse(n));
    MulOne(f, x[i]);
  }

  lemma Radix2Output<C(!new)>(f: Ring<C>, sign: int, x: seq<C>, normalize: bool, k: nat)
    requires IsRing(f) && IsPow2(|x|) && k < |x| && (sign == 1 || sign == -1)
    ensures f.mul(FftRecursive(f, sign, x)[k], f.mul(f.one, OrOne(f, normalize, |x|))) ==
      Wanted(f, sign, x, normalize, k)
  {
    RecursiveIsDft(f, sign, x, k);
    MulOne(f, OrOne(f, normalize, |x|));
  }

  /** The product of the spectra of the chirped input and of the chirp table. */
  ghost function ChirpProduct<C(!new)>(f: Ring<C>, sign: int, x: seq<C>, m: nat): (r: seq<C>)
    requires IsPow2(m) && |x| > 0 && 2 * |x| - 1 <= m
    ensures |r| == m
  {
    Product(f, FftRecursive(f, -1, Chirped(f, sign, x, m)), FftRecursive(f, -1, ChirpTable(f, sign, |x|, m)))
  }

  lemma BackTransform<C(!new)>(f: Ring<C>, sign: int, x: seq<C>, m: nat, k: nat)
    requires IsRing(f) && IsPow2(m) && k < |x| && 2 * |x| - 1 <= m
    ensures f.mul(FftRecursive(f, 1, ChirpProduct(f, sign, x, m))[k], Chirp(f, sign, |x|, k)) ==
      f.mul(Whole(f, m), Dft(f, sign, x, k))
  {
    var a, b, c := Chirped(f, sign, x, m), ChirpTable(f, sign, |x|, m), Chirp(f, sign, |x|, k);
    SpectrumIsRecursive(f, a);
    SpectrumIsRecursive(f, b);
    RecursiveIsDft(f, 1, ChirpProduct(f, sign, x, m), k);
    ConvolutionTheorem(f, a, b, k);
    ChirpConvolution(f, sign, x, m, k);
    MulAssoc(f, Whole(f, m), Convolution(f, a, b, k), c);
    MulComm(f, Convolution(f, a, b, k), c);
  }

  lemma ChirpOutput<C(!new)>(f: Ring<C>, sign: int, x: seq<C>, m: nat, normalize: bool, k: nat)
    requires IsRing(f) && IsPow2(m) && k < |x| && 2 * |x| - 1 <= m
    ensures f.mul(
      f.mul(FftRecursive(f, 1, ChirpProduct(f, sign, x, m))[k], Chirp(f, sign, |x|, k)),
      f.mul(f.inverse(m), OrOne(f, normalize, |x|))) == Wanted(f, sign, x, normalize, k)
  {
    BackTransform(f, sign, x, m, k);
    Unscale(f, Dft(f, sign, x, k), OrOne(f, normalize, |x|), m);
  }

  lemma Unscale<C(!new)>(f: Ring<C>, v: C, s: C, m: nat)
    requires IsRing(f) && m > 0
    ensures f.mul(f.mul(Whole(f, m), v), f.mul(f.inverse(m), s)) == f.mul(v, s)
  {
    var w, i := Whole(f, m), f.inverse(m);
    assert f.mul(i, w) == f.one;
    MulComm(f, w, v);
    MulAssoc(f, v, w, f.mul(i, s));
    MulAssoc(f, w, i, s);
    MulComm(f, w, i);
    MulOne(f, s);
  }

  /** The last kernel's value: the output chirp, if there is one, and the scale. */
  function Finished<C(!new)>(f: Ring<C>, chirped: bool, table: seq<C>, v: seq<C>, k: nat, scale: C): C
    requires k < |v| && (chirped ==> k < |table|)
  {
    f.mul(if chirped then f.mul(v[k], table[k]) else v[k], scale)
  }

  /** `finish`: the output chirp and the scale. */
  method Finish<C(!new)>(f: Ring<C>, a: array<C>, table: array<C>, width: nat, chirped: bool, scale: C) returns (out: array<C>)
    requires width <= a.Length && (chirped ==> width <= table.Length)
    ensures fresh(out) && out.Length == width
    ensures forall k: nat :: k < width ==> out[k] == Finished(f, chirped, table[..], a[..], k, scale)
  {
    out := new C[width](_ => f.zero);
    for k := 0 to width
      invariant forall i: nat :: i < k ==> out[i] == Finished(f, chirped, table[..], a[..], i, scale)
    {
      out[k] := f.mul(if chirped then f.mul(a[k], table[k]) else a[k], scale);
    }
  }

  // ----- the plan -----

  class DoubleFftPlan<C(!new)> {
    const f: Ring<C>
    const length: nat
    const workLength: nat
    const sign: int
    const work0: array<C>
    const work2: array<C>
    const twiddle: array<C>
    const chirp: array<C>
    const spectrum: array<C>

    ghost predicate Valid()
      reads twiddle, chirp, spectrum
    {
      && IsRing(f) && (sign == 1 || sign == -1) && length > 0 && workLength == WorkLength(length)
      && work0.Length == work2.Length == workLength && work0 != work2
      && twiddle != work0 && twiddle != work2 && chirp != work0 && chirp != work2 && spectrum != work0 && spectrum != work2
      && IsTwiddle(f, workLength, twiddle[..])
      && (!IsPow2(length) ==>
        && chirp.Length == length && IsChirp(f, sign, chirp[..])
        && spectrum[..] == FftRecursive(f, -1, ChirpTable(f, sign, length, workLength)))
    }

    /** `new`, after its checks. */
    constructor (f: Ring<C>, length: nat, sign: int, word: nat)
      requires IsRing(f) && length > 0 && (sign == 1 || sign == -1) && Log2(WorkLength(length)) <= word
      ensures Valid() && this.f == f && this.length == length && this.sign == sign
      ensures fresh(work0) && fresh(work2) && fresh(twiddle) && fresh(chirp) && fresh(spectrum)
    {
      var m := WorkLength(length);
      var t := MakeTwiddle(f, m);
      var c := new C[length](_ => f.one);
      var s := new C[m](_ => f.zero);
      if !IsPow2(length) {
        c, s := MakeChirp(f, sign, length, m);
        CoefficientFft.CoefficientFft(f, s, word);
      }
      this.f, this.length, this.sign, this.workLength := f, length, sign, m;
      twiddle, chirp, spectrum := t, c, s;
      work0 := new C[m](_ => f.zero);
      work2 := new C[m](_ => f.zero);
    }

    function Work(pair: nat): array<C> {
      if pair == 0 then work0 else work2
    }

    /** `prepare`: the input, chirped when the length is no power of two, written in mirrored order. */
    method Prepare(x: seq<C>)
      requires Valid()
      modifies work0
      ensures Valid() && IsPow2(workLength)
      ensures var input := Padded(f, x, length);
        work0[..] == Decimate(if IsPow2(length) then input else Chirped(f, sign, input, workLength))
    {
      var m, bits := workLength, Log2(workLength);
      var chirped := !IsPow2(length);
      ghost var input := Padded(f, x, length);
      ghost var v := if chirped then Chirped(f, sign, input, m) else input;
      for k := 0 to m
        invariant Placed(v, work0[..], bits, k)
      {
        var value := f.zero;
        if k < length {
          if k < |x| {
            value := x[k];
          }
          if chirped {
            value := f.mul(value, chirp[..][k]);
          }
        }
        assert value == v[k];
        var j := Reverse(k, bits);
        PlaceNext(v, work0[..], bits, k);
        work0[j] := value;
      }
      ReversedWrites(v, work0[..], bits);
    }

    /** `radix`: all stages, each from one buffer to the other; returns the buffer with the result. */
    method Radix(start: nat, inverse: bool) returns (pair: nat)
      requires Valid() && (start == 0 || start == 2)
      modifies work0, work2
      ensures Valid() && (pair == 0 || pair == 2)
      ensures Work(pair)[..] == Levels(f, Sign(inverse), old(Work(start)[..]), Log2(workLength), Log2(workLength))
    {
      pair := start;
      ghost var y, bits, s := Work(start)[..], Log2(workLength), 0;
      var half := 1;
      while half < workLength
        invariant (pair == 0 || pair == 2) && s <= bits && half == Pow2(s)
        invariant Work(pair)[..] == Levels(f, Sign(inverse), y, bits, s)
        decreases bits - s
      {
        StageFitsHalf(bits, s);
        var other := 2 - pair;
        FftKernels.Butterfly(f, Work(pair), twiddle, Work(other), half, inverse);
        pair := other;
        half := half * 2;
        s := s + 1;
      }
      HalfDone(bits, s);
    }

    /** `product_reverse`: the product of the spectra, written in mirrored order for the way back. */
    method ProductReverse(pair: nat)
      requires Valid() && !IsPow2(length) && (pair == 0 || pair == 2)
      modifies Work(2 - pair)
      ensures Valid() && IsPow2(workLength)
      ensures Work(2 - pair)[..] == Decimate(Product(f, old(Work(pair)[..]), spectrum[..]))
    {
      var a, b, bits := Work(pair), Work(2 - pair), Log2(workLength);
      ghost var v := Product(f, a[..], spectrum[..]);
      for k := 0 to workLength
        invariant Placed(v, b[..], bits, k)
      {
        var j := Reverse(k, bits);
        PlaceNext(v, b[..], bits, k);
        assert f.mul(a[k], spectrum[k]) == v[k];
        b[j] := f.mul(a[k], spectrum[k]);
      }
      ReversedWrites(v, b[..], bits);
    }

    /**
     `run`: for every length, power of two or not, the transform of the padded input, scaled when
     asked to; `width` is the number of outputs wanted.
     */
    method Run(x: seq<C>, width: nat, normalize: bool) returns (out: array<C>)
      requires Valid() && width <= length
      modifies work0, work2
      ensures Valid() && fresh(out) && out.Length == width
      ensures forall k: nat :: k < width ==> out[k] == Wanted(f, sign, Padded(f, x, length), normalize, k)
    {
      var bits := Log2(workLength);
      ghost var input := Padded(f, x, length);
      Prepare(x);
      var pair;
      var scale := OrOne(f, normalize, length);
      if IsPow2(length) {
        pair := Radix(0, sign == 1);
        LevelsAreRecursive(f, sign, input, bits);
        scale := f.mul(f.one, scale);
        forall k: nat | k < width
          ensures Finished(f, !IsPow2(length), chirp[..], Work(pair)[..], k, scale) == Wanted(f, sign, input, normalize, k)
        {
          Radix2Output(f, sign, input, normalize, k);
        }
      } else {
        pair := Radix(0, false);
        LevelsAreRecursive(f, -1, Chirped(f, sign, input, workLength), bits);
        ProductReverse(pair);
        pair := Radix(2 - pair, true);
        LevelsAreRecursive(f, 1, ChirpProduct(f, sign, input, workLength), bits);
        scale := f.mul(f.inverse(workLength), scale);
        forall k: nat | k < width
          ensures Finished(f, !IsPow2(length), chirp[..], Work(pair)[..], k, scale) == Wanted(f, sign, input, normalize, k)
        {
          ChirpOutput(f, sign, input, workLength, normalize, k);
        }
      }
      out := Finish(f, Work(pair), chirp, width, !IsPow2(length), scale);
    }
  }

  lemma StageFitsHalf(bits: nat, s: nat)
    requires s <= bits && Pow2(s) < Pow2(bits)
    ensures s < bits && Blocks(Pow2(bits), Pow2(s))
  {
    if s < bits {
      BlocksOfPow2(bits, s);
    }
  }

  lemma HalfDone(bits: nat, s: nat)
    requires s <= bits && Pow2(s) >= Pow2(bits)
    ensures s == bits
  {
    if s < bits {
      Pow2Monotone(s + 1, bits);
    }
  }

  /** `new` with its checks; `word` is the width of the machine's index type. */
  method NewPlan<C(!new)>(f: Ring<C>, length: nat, sign: int, word: nat) returns (r: Result<DoubleFftPlan<C>>)
    requires IsRing(f) && (sign == 1 || sign == -1) && 32 <= word
    ensures r.Success? <==> length > 0 && WorkLength(length) <= MaxIndex
    ensures r.Success? ==>
      && fresh(r.value) && r.value.Valid() && r.value.f == f && r.value.length == length && r.value.sign == sign
      && fresh(r.value.work0) && fresh(r.value.work2)
  {
    if length == 0 {
      return Failure;
    }
    if WorkLength(length) > MaxIndex {
      return Failure;
    }
    FitsWord(Log2(WorkLength(length)));
    var plan := new DoubleFftPlan(f, length, sign, word);
    return Success(plan);
  }

  /** A plan made for one input and run on it. */
  method Transform<C(!new)>(f: Ring<C>, x: seq<C>, sign: int, normalize: bool, word: nat) returns (r: Result<seq<C>>)
    requires IsRing(f) && (sign == 1 || sign == -1) && 32 <= word
    ensures r.Success? <==> x != [] && WorkLength(|x|) <= MaxIndex
    ensures r.Success? ==> |r.value| == |x| && forall k: nat :: k < |x| ==> r.value[k] == Wanted(f, sign, x, normalize, k)
  {
    var plan := NewPlan(f, |x|, sign, word);
    if plan.Failure? {
      return Failure;
    }
    var out := plan.value.Run(x, |x|, normalize);
    assert Padded(f, x, |x|) == x;
    return Success(out[..]);
  }

  /** Forward, then inverse and normalized: every input that plans can be made for comes back, whatever its length. */
  method RoundTrip<C(!new)>(f: Ring<C>, x: seq<C>, word: nat) returns (r: Result<seq<C>>)
    requires IsRing(f) && PrimitiveLaws(f) && 32 <= word
    ensures r.Success? <==> x != [] && WorkLength(|x|) <= MaxIndex
    ensures r.Success? ==> r.value == x
  {
    var spectrum := Transform(f, x, -1, false, word);
    if spectrum.Failure? {
      return Failure;
    }
    r := Transform(f, spectrum.value, 1, true, word);
    forall i: nat | i < |x|
      ensures r.value[i] == x[i]
    {
      TransformInverts(f, x, spectrum.value, i);
    }
  }

  lemma FitsWord(bits: nat)
    requires Pow2(bits) <= MaxIndex
    ensures bits <= 32
  {
    if bits > 32 {
      Pow2Monotone(32, bits);
      assert Pow2(8) == 256;
      Pow2Add(8, 8);
      Pow2Add(16, 16);
      assert false;
    }
  }
}
