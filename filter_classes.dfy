/** The filter classes: Filter and its FIR, IIR and SOS variants, the normalisation of their
    coefficient arrays to the layout (n_filters, n_rows, n_coeffs), and process. */
module FilterClasses {
  import opened Exceptions
  import opened Text
  import opened DifferenceEquation

  /** A coefficient (or state) array as the caller passes it: rank 1, 2 or 3, row by row. */
  datatype Array =
    | Vector(v: seq<real>)
    | Matrix(m: seq<seq<real>>)
    | Cube(c: seq<seq<seq<real>>>)

  /** Coefficients in the canonical layout: bank[filter][row][coefficient]. */
  type Bank = seq<seq<seq<real>>>

  function Concat(rows: seq<seq<real>>): seq<real> {
    if |rows| == 0 then [] else rows[0] + Concat(rows[1..])
  }

  function Flatten3(c: Bank): seq<real> {
    if |c| == 0 then [] else Concat(c[0]) + Flatten3(c[1..])
  }

  /** The entries of an array in row-major order. */
  function Entries(a: Array): seq<real> {
    match a
    case Vector(v) => v
    case Matrix(m) => Concat(m)
    case Cube(c) => Flatten3(c)
  }

  /** atleast_3d_first_dim: a vector of length L becomes (1, 1, L), an (M, L) matrix
      becomes (1, M, L), a rank-3 array is kept; the entries keep their order. */
  function AtLeast3dFirstDim(a: Array): (r: Bank)
    ensures Entries(Cube(r)) == Entries(a)
    ensures a.Cube? ==> r == a.c
    ensures !a.Cube? ==> |r| == 1
    ensures a.Vector? ==> |r[0]| == 1 && |r[0][0]| == |a.v|
    ensures a.Matrix? ==> |r[0]| == |a.m| && forall i :: 0 <= i < |a.m| ==> |r[0][i]| == |a.m[i]|
  {
    match a
    case Vector(v) =>
      assert [v][1..] == [] && [[v]][1..] == [];
      assert Concat([v]) == v;
      assert Flatten3([[v]]) == Concat([v]);
      [[v]]
    case Matrix(m) =>
      assert [m][1..] == [];
      assert Flatten3([m]) == Concat(m) + Flatten3([]);
      [m]
    case Cube(c) => c
  }

  lemma AtLeast3dFirstDimExamples(c: Bank)
    ensures AtLeast3dFirstDim(Vector([1.0, 0.0, 0.0])) == [[[1.0, 0.0, 0.0]]]
    ensures AtLeast3dFirstDim(Matrix([[1.0, 0.0, 0.0], [2.0, 2.0, 2.0]]))
            == [[[1.0, 0.0, 0.0], [2.0, 2.0, 2.0]]]
    ensures AtLeast3dFirstDim(Cube(c)) == c
  {
  }

  /** The numerator rows of FilterFIR (np.atleast_2d): one row per filter. */
  function Numerators(b: Array): seq<seq<real>>
    requires !b.Cube?
  {
    if b.Vector? then [b.v] else b.m
  }

  /** FilterFIR's coefficients: each numerator row with a denominator row [1, 0, …, 0]. */
  function FirBank(b: Array): Bank
    requires !b.Cube?
  {
    var rows := Numerators(b);
    seq(|rows|, f requires 0 <= f < |rows| => [rows[f], UnitImpulse(|rows[f]|)])
  }

  /** The concrete numerators of the FIR construction tests. */
  lemma FirBankExamples()
    ensures FirBank(Vector([1.0, 0.5, 0.0])) == [[[1.0, 0.5, 0.0], [1.0, 0.0, 0.0]]]
    ensures FirBank(Matrix([[1.0, 0.5, 0.0], [1.0, 0.25, 0.125]]))
            == [[[1.0, 0.5, 0.0], [1.0, 0.0, 0.0]], [[1.0, 0.25, 0.125], [1.0, 0.0, 0.0]]]
  {
    assert UnitImpulse(3) == [1.0, 0.0, 0.0];
  }

  /** The Python class a filter object belongs to. */
  datatype FilterKind = Generic | Fir | Iir | Sos

  /** One filter of a bank can be evaluated: FIR and IIR filters are a pair [b, a] with
      a0 ≠ 0, an SOS filter is a list of sections with a0 ≠ 0; the base class has no
      evaluation of its own. */
  predicate FilterProcessable(kind: FilterKind, filter: seq<seq<real>>) {
    match kind
    case Generic => false
    case Sos => AllSections(filter)
    case _ => |filter| == 2 && Normalizable(filter[1])
  }

  predicate Processable(kind: FilterKind, bank: Bank) {
    forall f :: 0 <= f < |bank| ==> FilterProcessable(kind, bank[f])
  }

  /** What one filter of the bank makes of one channel. */
  function Response(kind: FilterKind, filter: seq<seq<real>>, x: seq<real>): (y: seq<real>)
    requires FilterProcessable(kind, filter)
    ensures |y| == |x|
  {
    if kind == Sos then SosFiltered(filter, x) else Filtered(filter[0], filter[1], x)
  }

  /** The result of process: result[f][c] is filter f applied to channel c, so a bank of F
      filters yields F groups of rows, each as long as the input channel. */
  function BankResponse(kind: FilterKind, bank: Bank, x: seq<seq<real>>): (y: Bank)
    requires Processable(kind, bank)
    ensures |y| == |bank|
    ensures forall f :: 0 <= f < |bank| ==> |y[f]| == |x|
    ensures forall f, c :: 0 <= f < |bank| && 0 <= c < |x| ==> |y[f][c]| == |x[c]|
  {
    seq(|bank|, f requires 0 <= f < |bank| =>
      seq(|x|, c requires 0 <= c < |x| => Response(kind, bank[f], x[c])))
  }

  /** Every filter of the bank has the denominator [1, 0, …, 0]: a pair [b, a] for FIR and
      IIR, a single section [b0, b1, b2, 1, 0, 0] for SOS. */
  predicate HasUnitDenominators(kind: FilterKind, bank: Bank) {
    forall f :: 0 <= f < |bank| ==>
      if kind == Sos then
        |bank[f]| == 1 && |bank[f][0]| == 6 && bank[f][0][3..] == UnitImpulse(3)
      else
        kind != Generic && |bank[f]| == 2 && |bank[f][1]| > 0
        && bank[f][1] == UnitImpulse(|bank[f][1]|)
  }

  function Numerator(kind: FilterKind, filter: seq<seq<real>>): seq<real>
    requires |filter| > 0 && (kind == Sos ==> |filter[0]| >= 3)
  {
    if kind == Sos then filter[0][..3] else filter[0]
  }

  /** A bank whose denominators are all [1, 0, …, 0], given a unit impulse, answers every
      filter with its own numerator as its first output samples, then zeros. */
  lemma ImpulseResponseIsNumerator(kind: FilterKind, bank: Bank, N: nat, f: nat, n: nat)
    requires HasUnitDenominators(kind, bank) && kind != Generic
    requires f < |bank| && n < N
    ensures Processable(kind, bank)
    ensures BankResponse(kind, bank, [UnitImpulse(N)])[f][0][n] == At(Numerator(kind, bank[f]), n)
  {
    if kind == Sos {
      assert forall g :: 0 <= g < |bank| ==> AllSections(bank[g]);
      var s := bank[f][0];
      assert SosFiltered(bank[f], UnitImpulse(N)) == Filtered(s[..3], s[3..], UnitImpulse(N));
      FirImpulseResponse(s[..3], 3, N, n);
    } else {
      FirImpulseResponse(bank[f][0], |bank[f][1]|, N, n);
    }
  }

  /** FilterFIR is an IIR filter whose denominator is [1, 0, …, 0]: process convolves every
      channel with the numerator of each filter. */
  lemma FirProcessIsConvolution(b: Array, x: seq<seq<real>>, f: nat, c: nat, n: nat)
    requires !b.Cube? && forall g :: 0 <= g < |Numerators(b)| ==> |Numerators(b)[g]| > 0
    requires f < |Numerators(b)| && c < |x| && n < |x[c]|
    ensures HasUnitDenominators(Fir, FirBank(b)) && Processable(Fir, FirBank(b))
    ensures |BankResponse(Fir, FirBank(b), x)| == |Numerators(b)|
    ensures BankResponse(Fir, FirBank(b), x)[f][c][n]
            == Conv(Numerators(b)[f], x[c], n, |Numerators(b)[f]|)
  {
    var rows := Numerators(b);
    FirIsConvolution(rows[f], |rows[f]|, x[c], n);
  }

  /** The IIR filter [[1, 1/2, 0], [1, 1/8, 0]] on a unit impulse starts 1, 0.375,
      −0.046875, 0.005859375. */
  lemma IirProcessExample(N: nat)
    requires N >= 4
    ensures Processable(Iir, AtLeast3dFirstDim(Matrix([[1.0, 0.5, 0.0], [1.0, 0.125, 0.0]])))
    ensures BankResponse(Iir, AtLeast3dFirstDim(Matrix([[1.0, 0.5, 0.0], [1.0, 0.125, 0.0]])),
                         [UnitImpulse(N)])[0][0][..4]
            == [1.0, 0.375, -0.046875, 0.005859375]
  {
    ExampleIirImpulsePrefix(N);
  }

  /** The FIR, IIR and SOS process tests: each filter answers a unit impulse with its
      numerator. */
  lemma ProcessExamples(N: nat)
    requires N >= 3
    ensures HasUnitDenominators(Iir, AtLeast3dFirstDim(Matrix([[1.0, 0.5, 0.0], [1.0, 0.0, 0.0]])))
    ensures BankResponse(Iir, AtLeast3dFirstDim(Matrix([[1.0, 0.5, 0.0], [1.0, 0.0, 0.0]])),
                         [UnitImpulse(N)])[0][0][..3] == [1.0, 0.5, 0.0]
    ensures HasUnitDenominators(Fir, FirBank(Vector([1.0, 0.5, 0.0])))
    ensures BankResponse(Fir, FirBank(Vector([1.0, 0.5, 0.0])), [UnitImpulse(N)])[0][0][..3]
            == [1.0, 0.5, 0.0]
    ensures HasUnitDenominators(Sos, AtLeast3dFirstDim(Matrix([[1.0, 0.5, 0.0, 1.0, 0.0, 0.0]])))
    ensures BankResponse(Sos, AtLeast3dFirstDim(Matrix([[1.0, 0.5, 0.0, 1.0, 0.0, 0.0]])),
                         [UnitImpulse(N)])[0][0][..3] == [1.0, 0.5, 0.0]
  {
    assert UnitImpulse(3) == [1.0, 0.0, 0.0];
    var iir := AtLeast3dFirstDim(Matrix([[1.0, 0.5, 0.0], [1.0, 0.0, 0.0]]));
    var fir := FirBank(Vector([1.0, 0.5, 0.0]));
    var sos := AtLeast3dFirstDim(Matrix([[1.0, 0.5, 0.0, 1.0, 0.0, 0.0]]));
    assert sos[0][0][3..] == [1.0, 0.0, 0.0];
    forall n | 0 <= n < 3
      ensures BankResponse(Iir, iir, [UnitImpulse(N)])[0][0][n] == [1.0, 0.5, 0.0][n]
      ensures BankResponse(Fir, fir, [UnitImpulse(N)])[0][0][n] == [1.0, 0.5, 0.0][n]
      ensures BankResponse(Sos, sos, [UnitImpulse(N)])[0][0][n] == [1.0, 0.5, 0.0][n]
    {
      ImpulseResponseIsNumerator(Iir, iir, N, 0, n);
      ImpulseResponseIsNumerator(Fir, fir, N, 0, n);
      ImpulseResponseIsNumerator(Sos, sos, N, 0, n);
    }
  }

  /** The first three outputs of filter f for a unit impulse are its numerator's first
      three coefficients. */
  lemma ImpulseResponsePrefix(kind: FilterKind, bank: Bank, N: nat, f: nat)
    requires HasUnitDenominators(kind, bank) && kind != Generic
    requires f < |bank| && N >= 3 && |Numerator(kind, bank[f])| == 3
    ensures Processable(kind, bank)
    ensures BankResponse(kind, bank, [UnitImpulse(N)])[f][0][..3] == Numerator(kind, bank[f])
  {
    var y := BankResponse(kind, bank, [UnitImpulse(N)])[f][0];
    forall n | 0 <= n < 3
      ensures y[n] == Numerator(kind, bank[f])[n]
    {
      ImpulseResponseIsNumerator(kind, bank, N, f, n);
    }
  }

  /** The multi-filter IIR process test: two filters yield two rows, each starting with its
      own numerator. */
  lemma IirBankProcessExample(N: nat)
    requires N >= 3
    ensures HasUnitDenominators(Iir, [[[1.0, 0.5, 0.0], [1.0, 0.0, 0.0]], [[1.0, 0.25, 0.0], [1.0, 0.0, 0.0]]])
    ensures |BankResponse(Iir, [[[1.0, 0.5, 0.0], [1.0, 0.0, 0.0]], [[1.0, 0.25, 0.0], [1.0, 0.0, 0.0]]],
                          [UnitImpulse(N)])| == 2
    ensures BankResponse(Iir, [[[1.0, 0.5, 0.0], [1.0, 0.0, 0.0]], [[1.0, 0.25, 0.0], [1.0, 0.0, 0.0]]],
                         [UnitImpulse(N)])[0][0][..3] == [1.0, 0.5, 0.0]
    ensures BankResponse(Iir, [[[1.0, 0.5, 0.0], [1.0, 0.0, 0.0]], [[1.0, 0.25, 0.0], [1.0, 0.0, 0.0]]],
                         [UnitImpulse(N)])[1][0][..3] == [1.0, 0.25, 0.0]
  {
    assert UnitImpulse(3) == [1.0, 0.0, 0.0];
    var bank := [[[1.0, 0.5, 0.0], [1.0, 0.0, 0.0]], [[1.0, 0.25, 0.0], [1.0, 0.0, 0.0]]];
    ImpulseResponsePrefix(Iir, bank, N, 0);
    ImpulseResponsePrefix(Iir, bank, N, 1);
  }

  /** The multi-filter FIR process test. */
  lemma FirBankProcessExample(N: nat)
    requires N >= 3
    ensures HasUnitDenominators(Fir, FirBank(Matrix([[1.0, 0.5, 0.0], [1.0, 0.25, 0.0]])))
    ensures |BankResponse(Fir, FirBank(Matrix([[1.0, 0.5, 0.0], [1.0, 0.25, 0.0]])), [UnitImpulse(N)])| == 2
    ensures BankResponse(Fir, FirBank(Matrix([[1.0, 0.5, 0.0], [1.0, 0.25, 0.0]])),
                         [UnitImpulse(N)])[0][0][..3] == [1.0, 0.5, 0.0]
    ensures BankResponse(Fir, FirBank(Matrix([[1.0, 0.5, 0.0], [1.0, 0.25, 0.0]])),
                         [UnitImpulse(N)])[1][0][..3] == [1.0, 0.25, 0.0]
  {
    var bank := FirBank(Matrix([[1.0, 0.5, 0.0], [1.0, 0.25, 0.0]]));
    ImpulseResponsePrefix(Fir, bank, N, 0);
    ImpulseResponsePrefix(Fir, bank, N, 1);
  }

  /** The multi-filter SOS process test. */
  lemma SosBankProcessExample(N: nat)
    requires N >= 3
    ensures HasUnitDenominators(Sos, [[[1.0, 0.5, 0.0, 1.0, 0.0, 0.0]], [[1.0, 0.25, 0.0, 1.0, 0.0, 0.0]]])
    ensures |BankResponse(Sos, [[[1.0, 0.5, 0.0, 1.0, 0.0, 0.0]], [[1.0, 0.25, 0.0, 1.0, 0.0, 0.0]]],
                          [UnitImpulse(N)])| == 2
    ensures BankResponse(Sos, [[[1.0, 0.5, 0.0, 1.0, 0.0, 0.0]], [[1.0, 0.25, 0.0, 1.0, 0.0, 0.0]]],
                         [UnitImpulse(N)])[0][0][..3] == [1.0, 0.5, 0.0]
    ensures BankResponse(Sos, [[[1.0, 0.5, 0.0, 1.0, 0.0, 0.0]], [[1.0, 0.25, 0.0, 1.0, 0.0, 0.0]]],
                         [UnitImpulse(N)])[1][0][..3] == [1.0, 0.25, 0.0]
  {
    assert UnitImpulse(3) == [1.0, 0.0, 0.0];
    var bank := [[[1.0, 0.5, 0.0, 1.0, 0.0, 0.0]], [[1.0, 0.25, 0.0, 1.0, 0.0, 0.0]]];
    assert bank[0][0][3..] == [1.0, 0.0, 0.0] && bank[1][0][3..] == [1.0, 0.0, 0.0];
    ImpulseResponsePrefix(Sos, bank, N, 0);
    ImpulseResponsePrefix(Sos, bank, N, 1);
  }

  /** The comment as the constructor stores it: absent, or the text form of the value. */
  function StoredComment(comment: Option<PyValue>): Option<string> {
    if comment.Some? then Some(Str(comment.value)) else None
  }

  /** Evaluates one filter of the bank on every channel. */
  method ProcessFilter(kind: FilterKind, filter: seq<seq<real>>, x: seq<seq<real>>)
    returns (rows: seq<seq<real>>)
    requires FilterProcessable(kind, filter)
    ensures |rows| == |x|
    ensures forall c :: 0 <= c < |x| ==> rows[c] == Response(kind, filter, x[c])
  {
    rows := [];
    var c := 0;
    while c < |x|
      invariant 0 <= c <= |x| && |rows| == c
      invariant forall j :: 0 <= j < c ==> rows[j] == Response(kind, filter, x[j])
    {
      var y;
      if kind == Sos {
        y := CascadeChannel(filter, x[c]);
      } else {
        y := FilterChannel(filter[0], filter[1], x[c]);
      }
      rows := rows + [y];
      c := c + 1;
    }
  }

  class Filter {
    const kind: FilterKind
    const coefficients: Option<Bank>
    var state: Option<Array>
    var comment: Option<string>

    /** A filter without coefficients carries no state. */
    ghost predicate Valid()
      reads this
    {
      state.Some? ==> coefficients.Some?
    }

    constructor Init(kind: FilterKind, coefficients: Option<Bank>, state: Option<Array>,
                     comment: Option<PyValue>)
      requires state.Some? ==> coefficients.Some?
      ensures Valid()
      ensures this.kind == kind && this.coefficients == coefficients && this.state == state
      ensures this.comment == StoredComment(comment)
    {
      this.kind := kind;
      this.coefficients := coefficients;
      this.state := state;
      this.comment := StoredComment(comment);
    }

    /** Filter(coefficients, state, comment): a state without coefficients is a ValueError;
        coefficients are normalised by atleast_3d_first_dim, the state is kept as given. */
    static method Create(coefficients: Option<Array>, state: Option<Array>, comment: Option<PyValue>)
      returns (r: Result<Filter>)
      ensures r.Err? <==> coefficients.None? && state.Some?
      ensures r.Err? ==> r.error.ValueError?
      ensures r.Ok? ==> fresh(r.value) && r.value.Valid() && r.value.kind == Generic
      ensures r.Ok? ==> r.value.coefficients
                        == (if coefficients.Some? then Some(AtLeast3dFirstDim(coefficients.value)) else None)
      ensures r.Ok? ==> r.value.state == state && r.value.comment == StoredComment(comment)
    {
      if coefficients.None? && state.Some? {
        return Err(ValueError("Cannot set a state without filter coefficients"));
      }
      var normalized := if coefficients.Some? then Some(AtLeast3dFirstDim(coefficients.value)) else None;
      var filter := new Filter.Init(Generic, normalized, state, comment);
      return Ok(filter);
    }

    /** FilterFIR(b): every numerator row gets the denominator [1, 0, …, 0]. */
    constructor FIR(b: Array, state: Option<Array>, comment: Option<PyValue>)
      requires !b.Cube?
      ensures Valid() && kind == Fir
      ensures coefficients == Some(FirBank(b)) && this.state == state
      ensures this.comment == StoredComment(comment)
    {
      kind := Fir;
      coefficients := Some(FirBank(b));
      this.state := state;
      this.comment := StoredComment(comment);
    }

    /** FilterIIR(ba): a single [b, a] pair becomes a bank of one filter. */
    constructor IIR(ba: Array, state: Option<Array>, comment: Option<PyValue>)
      ensures Valid() && kind == Iir
      ensures coefficients == Some(AtLeast3dFirstDim(ba)) && this.state == state
      ensures this.comment == StoredComment(comment)
    {
      kind := Iir;
      coefficients := Some(AtLeast3dFirstDim(ba));
      this.state := state;
      this.comment := StoredComment(comment);
    }

    /** FilterSOS(sos): a single list of sections becomes a bank of one filter. */
    constructor SOS(sos: Array, state: Option<Array>, comment: Option<PyValue>)
      ensures Valid() && kind == Sos
      ensures coefficients == Some(AtLeast3dFirstDim(sos)) && this.state == state
      ensures this.comment == StoredComment(comment)
    {
      kind := Sos;
      coefficients := Some(AtLeast3dFirstDim(sos));
      this.state := state;
      this.comment := StoredComment(comment);
    }

    /** The comment setter stores the text form of whatever it is given. */
    method SetComment(value: PyValue)
      requires Valid()
      modifies this`comment
      ensures Valid() && comment == Some(Str(value))
    {
      comment := Some(Str(value));
    }

    /** process: every filter of the bank applied to every channel, from rest. Without
        coefficients the filter is not initialised; the base class does not evaluate. */
    method Process(x: seq<seq<real>>) returns (r: Result<Bank>)
      requires Valid()
      requires coefficients.Some? && kind != Generic ==> Processable(kind, coefficients.value)
      ensures coefficients.None? ==> r.Err? && r.error.ValueError?
      ensures coefficients.Some? && kind == Generic ==> r.Err? && r.error.NotImplementedError?
      ensures coefficients.Some? && kind != Generic ==> r == Ok(BankResponse(kind, coefficients.value, x))
    {
      if coefficients.None? {
        return Err(ValueError("The filter is not initialized"));
      }
      if kind == Generic {
        return Err(NotImplementedError("Abstract filter class"));
      }
      var bank := coefficients.value;
      var out: Bank := [];
      var f := 0;
      while f < |bank|
        invariant 0 <= f <= |bank| && |out| == f
        invariant forall g :: 0 <= g < f ==> out[g] == BankResponse(kind, bank, x)[g]
      {
        var rows := ProcessFilter(kind, bank[f], x);
        assert rows == BankResponse(kind, bank, x)[f];
        out := out + [rows];
        f := f + 1;
      }
      assert out == BankResponse(kind, bank, x);
      return Ok(out);
    }
  }
}
