/**
 * The twelve statistics of the table footer (`_gerarLinhaResultados`),
 * over the coerced numeric values of one column. Numbers are reals;
 * `Math.sqrt` is an uninterpreted parameter, so DPad and CV are stated
 * in terms of it.
 */
module Estatisticas {
  import opened JsCommon

  datatype Calculo = Tot | Med | Cnt | Max | Min | DPad | Var | MDn | Q1 | Q3 | CV | Amp

  /** The directive string of each statistic, as listed in `tiposCalculo`. */
  function NomeCalculo(c: Calculo): string {
    match c
    case Tot => "Tot"  case Med => "Med"  case Cnt => "Cnt"  case Max => "Max"
    case Min => "Min"  case DPad => "DPad" case Var => "Var" case MDn => "MDn"
    case Q1 => "Q1"    case Q3 => "Q3"    case CV => "CV"    case Amp => "Amp"
  }

  /** `tiposCalculo.includes(s)`, returning the statistic it names. */
  function CodigoCalculo(s: string): (r: Option<Calculo>)
    ensures r.Some? ==> NomeCalculo(r.value) == s
    ensures r.None? ==> forall c :: NomeCalculo(c) != s
  {
    match s
    case "Tot" => Some(Tot)  case "Med" => Some(Med)  case "Cnt" => Some(Cnt)
    case "Max" => Some(Max)  case "Min" => Some(Min)  case "DPad" => Some(DPad)
    case "Var" => Some(Var)  case "MDn" => Some(MDn)  case "Q1" => Some(Q1)
    case "Q3" => Some(Q3)    case "CV" => Some(CV)    case "Amp" => Some(Amp)
    case _ => None
  }

  /** Each statistic is recognised by its own name, and no code is blank. */
  lemma CodigoDoNome(c: Calculo)
    ensures CodigoCalculo(NomeCalculo(c)) == Some(c)
    ensures |NomeCalculo(c)| >= 2 && !IsJsSpace(NomeCalculo(c)[0])
  {
  }

  /** `reduce((sum, val) => sum + val, 0)`, folding from the left. */
  function Soma(v: seq<real>): (r: real)
    ensures v == [] ==> r == 0.0
    ensures |v| == 1 ==> r == v[0]
  {
    if v == [] then 0.0 else Soma(v[..|v| - 1]) + v[|v| - 1]
  }

  /** The left fold gives the same total as the first value plus the sum of the rest. */
  lemma {:induction false} SomaPelaCabeca(v: seq<real>)
    requires |v| > 0
    ensures Soma(v) == v[0] + Soma(v[1..])
  {
    var n := |v|;
    if n > 1 {
      SomaPelaCabeca(v[..n - 1]);
      assert v[..n - 1][1..] == v[1..][..n - 2];
    }
  }

  function Maximo(v: seq<real>): (r: real)
    requires |v| > 0
    ensures r in v
    ensures forall i :: 0 <= i < |v| ==> v[i] <= r
  {
    if |v| == 1 then v[0]
    else var m := Maximo(v[1..]); if v[0] >= m then v[0] else m
  }

  function Minimo(v: seq<real>): (r: real)
    requires |v| > 0
    ensures r in v
    ensures forall i :: 0 <= i < |v| ==> r <= v[i]
  {
    if |v| == 1 then v[0]
    else var m := Minimo(v[1..]); if v[0] <= m then v[0] else m
  }

  /** Med: the sum over the row count, 0 for no rows. */
  function Media(v: seq<real>): (r: real)
    ensures v == [] ==> r == 0.0
    ensures |v| > 0 ==> r * (|v| as real) == Soma(v)
  {
    if |v| > 0 then Soma(v) / (|v| as real) else 0.0
  }

  /** `reduce((sum, val) => sum + Math.pow(val - media, 2), 0)`. */
  function SomaQuadrados(v: seq<real>, m: real): real {
    if v == [] then 0.0 else SomaQuadrados(v[..|v| - 1], m) + (v[|v| - 1] - m) * (v[|v| - 1] - m)
  }

  /** Var: sample variance with divisor n-1, 0 when n <= 1. */
  function Variancia(v: seq<real>): (r: real)
    ensures |v| <= 1 ==> r == 0.0
    ensures |v| > 1 ==> r * ((|v| - 1) as real) == SomaQuadrados(v, Media(v))
  {
    if |v| > 1 then SomaQuadrados(v, Media(v)) / ((|v| - 1) as real) else 0.0
  }

  /** DPad recomputes the mean and the sum of squares and takes their square root. */
  function DesvioPadrao(v: seq<real>, sqrt: real -> real): (r: real)
    ensures |v| <= 1 ==> r == 0.0
    ensures |v| > 1 ==> r == sqrt(Variancia(v))
  {
    if |v| > 1 then
      var media := Soma(v) / (|v| as real);
      sqrt(SomaQuadrados(v, media) / ((|v| - 1) as real))
    else 0.0
  }

  /** CV: the standard deviation as a percentage of the mean; 0 when n <= 1 or the mean is 0. */
  function CoefVariacao(v: seq<real>, sqrt: real -> real): (r: real)
    ensures |v| <= 1 || Media(v) == 0.0 ==> r == 0.0
    ensures |v| > 1 && Media(v) != 0.0 ==> r == (DesvioPadrao(v, sqrt) / Media(v)) * 100.0
  {
    if |v| > 1 then
      var media := Soma(v) / (|v| as real);
      if media != 0.0 then
        var desvio := sqrt(SomaQuadrados(v, media) / ((|v| - 1) as real));
        (desvio / media) * 100.0
      else 0.0
    else 0.0
  }

  predicate Crescente(s: seq<real>) {
    forall i, j :: 0 <= i < j < |s| ==> s[i] <= s[j]
  }

  function Inserir(x: real, s: seq<real>): (r: seq<real>)
    ensures |r| == |s| + 1
    ensures multiset(r) == multiset(s) + multiset{x}
  {
    if s == [] then [x]
    else if x <= s[0] then [x] + s
    else
      assert s == [s[0]] + s[1..];
      [s[0]] + Inserir(x, s[1..])
  }

  /** Inserting into an ascending list keeps it ascending. */
  lemma {:induction false} InserirCrescente(x: real, s: seq<real>)
    requires Crescente(s)
    ensures Crescente(Inserir(x, s))
  {
    if s != [] && x > s[0] {
      var t := Inserir(x, s[1..]);
      InserirCrescente(x, s[1..]);
      assert s == [s[0]] + s[1..];
      forall k | 0 <= k < |t|
        ensures s[0] <= t[k]
      {
        assert t[k] in multiset(t);
        assert t[k] in multiset(s[1..]) || t[k] == x;
      }
      CrescenteComCabeca(s[0], t);
    }
  }

  lemma CrescenteComCabeca(h: real, t: seq<real>)
    requires Crescente(t)
    requires forall k :: 0 <= k < |t| ==> h <= t[k]
    ensures Crescente([h] + t)
  {
  }

  /** `[...valores].sort((a, b) => a - b)`: ascending, a permutation of the input. */
  function Ordenar(v: seq<real>): (r: seq<real>)
    ensures |r| == |v|
    ensures Crescente(r)
    ensures multiset(r) == multiset(v)
  {
    if v == [] then []
    else
      assert v == [v[0]] + v[1..];
      InserirCrescente(v[0], Ordenar(v[1..]));
      Inserir(v[0], Ordenar(v[1..]))
  }

  /** MDn: the middle element of the sorted values, or the mean of the two middle ones. */
  function Mediana(v: seq<real>): (r: real)
    requires |v| > 0
    ensures Minimo(v) <= r <= Maximo(v)
    ensures |v| % 2 == 1 ==> r in v
  {
    OrdenadoEntreExtremos(v);
    var s := Ordenar(v);
    assert s[|s| / 2] in multiset(s);
    var meio := |s| / 2;
    if |s| % 2 == 0 then (s[meio - 1] + s[meio]) / 2.0 else s[meio]
  }

  /** Q1: `ordenados[Math.floor(n * 0.25)] || 0`; the index is n div 4. */
  function Quartil1(v: seq<real>): (r: real)
    ensures v == [] ==> r == 0.0
    ensures |v| > 0 ==> r in v && Minimo(v) <= r <= Maximo(v)
  {
    if |v| > 0 then
      OrdenadoEntreExtremos(v);
      assert Ordenar(v)[|v| / 4] in multiset(Ordenar(v));
      Ordenar(v)[|v| / 4]
    else 0.0
  }

  /** Q3: `ordenados[Math.floor(n * 0.75)] || 0`; the index is (3n) div 4. */
  function Quartil3(v: seq<real>): (r: real)
    ensures v == [] ==> r == 0.0
    ensures |v| > 0 ==> r in v && Minimo(v) <= r <= Maximo(v)
  {
    if |v| > 0 then
      OrdenadoEntreExtremos(v);
      assert Ordenar(v)[(3 * |v|) / 4] in multiset(Ordenar(v));
      Ordenar(v)[(3 * |v|) / 4]
    else 0.0
  }

  /** Amp: the largest value minus the smallest, 0 for no rows. */
  function Amplitude(v: seq<real>): (r: real)
    ensures v == [] ==> r == 0.0
    ensures forall i, j :: 0 <= i < |v| && 0 <= j < |v| ==> v[i] - v[j] <= r
  {
    if |v| > 0 then Maximo(v) - Minimo(v) else 0.0
  }

  /** The value of one statistic over a non-empty column (the footer is empty otherwise). */
  function Estatistica(c: Calculo, v: seq<real>, sqrt: real -> real): (r: real)
    requires |v| > 0
    ensures c == Cnt ==> r == |v| as real
    ensures c.Med? || c.Max? || c.Min? || c.MDn? || c.Q1? || c.Q3? ==> Minimo(v) <= r <= Maximo(v)
    ensures c.Var? || c.Amp? ==> r >= 0.0
  {
    MediaEntreExtremos(v);
    VarianciaNaoNegativa(v);
    match c
    case Tot => Soma(v)
    case Med => Media(v)
    case Cnt => |v| as real
    case Max => Maximo(v)
    case Min => Minimo(v)
    case DPad => DesvioPadrao(v, sqrt)
    case Var => Variancia(v)
    case MDn => Mediana(v)
    case Q1 => Quartil1(v)
    case Q3 => Quartil3(v)
    case CV => CoefVariacao(v, sqrt)
    case Amp => Amplitude(v)
  }

  lemma {:induction false} SomaLimitada(v: seq<real>, lo: real, hi: real)
    requires forall i :: 0 <= i < |v| ==> lo <= v[i] <= hi
    ensures (|v| as real) * lo <= Soma(v) <= (|v| as real) * hi
  {
    if v != [] {
      SomaLimitada(v[..|v| - 1], lo, hi);
      assert (|v| as real) * lo == ((|v| - 1) as real) * lo + lo;
      assert (|v| as real) * hi == ((|v| - 1) as real) * hi + hi;
    }
  }

  lemma QuocienteEntre(s: real, n: real, lo: real, hi: real)
    requires n > 0.0 && n * lo <= s <= n * hi
    ensures lo <= s / n <= hi
  {
    var q := s / n;
    assert q * n == s;
  }

  /** The mean lies between the minimum and the maximum. */
  lemma {:induction false} MediaEntreExtremos(v: seq<real>)
    requires |v| > 0
    ensures Minimo(v) <= Media(v) <= Maximo(v)
  {
    MediaLimitada(v, Minimo(v), Maximo(v));
  }

  /** Bounds on every row bound the mean. */
  lemma MediaLimitada(v: seq<real>, lo: real, hi: real)
    requires |v| > 0
    requires forall i :: 0 <= i < |v| ==> lo <= v[i] <= hi
    ensures lo <= Media(v) <= hi
  {
    SomaLimitada(v, lo, hi);
    QuocienteEntre(Soma(v), |v| as real, lo, hi);
  }

  lemma {:induction false} SomaQuadradosNaoNegativa(v: seq<real>, m: real)
    ensures SomaQuadrados(v, m) >= 0.0
  {
    if v != [] {
      SomaQuadradosNaoNegativa(v[..|v| - 1], m);
      var d := v[|v| - 1] - m;
      assert d * d >= 0.0;
    }
  }

  /** Var is never negative. */
  lemma {:induction false} VarianciaNaoNegativa(v: seq<real>)
    ensures Variancia(v) >= 0.0
  {
    SomaQuadradosNaoNegativa(v, Media(v));
  }

  /** The sorted values run from the minimum to the maximum. */
  lemma {:induction false} OrdenadoEntreExtremos(v: seq<real>)
    requires |v| > 0
    ensures Ordenar(v)[0] == Minimo(v)
    ensures Ordenar(v)[|v| - 1] == Maximo(v)
    ensures forall k :: 0 <= k < |v| ==> Minimo(v) <= Ordenar(v)[k] <= Maximo(v)
  {
    PermutacaoCrescenteEntre(Ordenar(v), v, Minimo(v), Maximo(v));
  }

  /** A sorted permutation of `v` runs from the least to the greatest element of `v`. */
  lemma PermutacaoCrescenteEntre(s: seq<real>, v: seq<real>, lo: real, hi: real)
    requires |v| > 0 && Crescente(s) && multiset(s) == multiset(v)
    requires lo in v && hi in v
    requires forall i :: 0 <= i < |v| ==> lo <= v[i] <= hi
    ensures |s| == |v|
    ensures s[0] == lo && s[|s| - 1] == hi
    ensures forall k :: 0 <= k < |s| ==> lo <= s[k] <= hi
  {
    assert |s| == |multiset(s)| == |multiset(v)| == |v|;
    forall k | 0 <= k < |s|
      ensures lo <= s[k] <= hi
    {
      assert s[k] in multiset(v);
      var i :| 0 <= i < |v| && v[i] == s[k];
    }
    assert lo in multiset(s);
    assert hi in multiset(s);
    var a :| 0 <= a < |s| && s[a] == lo;
    var b :| 0 <= b < |s| && s[b] == hi;
    assert s[0] <= s[a];
    assert s[b] <= s[|s| - 1];
  }

  /** Min <= Q1 <= MDn <= Q3 <= Max, and both quartile indices are in range. */
  lemma {:induction false} OrdemDosQuartis(v: seq<real>)
    requires |v| > 0
    ensures 0 <= |v| / 4 < |v| && 0 <= (3 * |v|) / 4 < |v|
    ensures Minimo(v) <= Quartil1(v) <= Mediana(v) <= Quartil3(v) <= Maximo(v)
  {
    var n := |v|;
    OrdenadoEntreExtremos(v);
    IndicesDosQuartis(n);
    MedianaEntreQuartis(v);
  }

  lemma {:induction false} MedianaEntreQuartis(v: seq<real>)
    requires |v| > 0
    ensures Quartil1(v) <= Mediana(v) <= Quartil3(v)
  {
    var s := Ordenar(v);
    var n := |v|;
    IndicesDosQuartis(n);
    var i1, meio, i3 := n / 4, n / 2, (3 * n) / 4;
    if n % 2 == 0 {
      assert Mediana(v) == (s[meio - 1] + s[meio]) / 2.0;
      assert s[i1] <= s[meio - 1] && s[meio - 1] <= s[meio] && s[meio] <= s[i3];
    } else {
      assert Mediana(v) == s[meio];
      assert s[i1] <= s[meio] && s[meio] <= s[i3];
    }
  }

  lemma IndicesDosQuartis(n: int)
    requires n > 0
    ensures 0 <= n / 4 < n && 0 <= (3 * n) / 4 < n
    ensures n % 2 == 0 ==> 1 <= n / 2 && n / 4 <= n / 2 - 1 && n / 2 <= (3 * n) / 4
    ensures n % 2 == 1 ==> n / 4 <= n / 2 <= (3 * n) / 4 && n / 2 < n
  {
  }

  /** Amp is the spread of the sorted values, hence never negative. */
  lemma {:induction false} AmplitudeNaoNegativa(v: seq<real>)
    ensures Amplitude(v) >= 0.0
    ensures |v| > 0 ==> Amplitude(v) == Ordenar(v)[|v| - 1] - Ordenar(v)[0]
  {
    if |v| > 0 {
      OrdenadoEntreExtremos(v);
    }
  }

  lemma {:induction false} SomaConstante(v: seq<real>, c: real, m: real)
    requires forall i :: 0 <= i < |v| ==> v[i] == c
    ensures Soma(v) == (|v| as real) * c
    ensures SomaQuadrados(v, m) == (|v| as real) * ((c - m) * (c - m))
  {
    if v != [] {
      SomaConstante(v[..|v| - 1], c, m);
      assert (|v| as real) * c == ((|v| - 1) as real) * c + c;
      assert (|v| as real) * ((c - m) * (c - m)) == ((|v| - 1) as real) * ((c - m) * (c - m)) + (c - m) * (c - m);
    }
  }

  /**
   * A column whose rows all hold the same value c: every location statistic
   * is c and every spread statistic is 0.
   */
  lemma {:induction false} ColunaConstante(v: seq<real>, c: real, sqrt: real -> real)
    requires |v| > 0
    requires forall i :: 0 <= i < |v| ==> v[i] == c
    ensures Soma(v) == (|v| as real) * c
    ensures Media(v) == c && Maximo(v) == c && Minimo(v) == c
    ensures Mediana(v) == c && Quartil1(v) == c && Quartil3(v) == c
    ensures Variancia(v) == 0.0 && Amplitude(v) == 0.0
    ensures DesvioPadrao(v, sqrt) == (if |v| > 1 then sqrt(0.0) else 0.0)
  {
    MediaConstante(v, c);
    OrdenadaConstante(v, c);
    SomaConstante(v, c, c);
    ExtremosConstantes(v, c);
    EspalhamentoConstante(v, c, sqrt);
  }

  lemma ExtremosConstantes(v: seq<real>, c: real)
    requires |v| > 0
    requires forall i :: 0 <= i < |v| ==> v[i] == c
    ensures Maximo(v) == c && Minimo(v) == c && Amplitude(v) == 0.0
  {
  }

  lemma EspalhamentoConstante(v: seq<real>, c: real, sqrt: real -> real)
    requires |v| > 0
    requires forall i :: 0 <= i < |v| ==> v[i] == c
    ensures Variancia(v) == 0.0
    ensures DesvioPadrao(v, sqrt) == (if |v| > 1 then sqrt(0.0) else 0.0)
  {
    MediaConstante(v, c);
    SomaConstante(v, c, Media(v));
  }

  /** The mean of a constant column is that constant. */
  lemma MediaConstante(v: seq<real>, c: real)
    requires |v| > 0
    requires forall i :: 0 <= i < |v| ==> v[i] == c
    ensures Media(v) == c
  {
    MediaLimitada(v, c, c);
  }

  /** Sorting a constant column leaves every position at that constant. */
  lemma OrdenadaConstante(v: seq<real>, c: real)
    requires |v| > 0
    requires forall i :: 0 <= i < |v| ==> v[i] == c
    ensures Mediana(v) == c && Quartil1(v) == c && Quartil3(v) == c
  {
    var s := Ordenar(v);
    forall k | 0 <= k < |s|
      ensures s[k] == c
    {
      assert s[k] in multiset(v);
      var i :| 0 <= i < |v| && v[i] == s[k];
    }
    OrdemDosQuartis(v);
    var meio := |s| / 2;
    if |s| % 2 == 0 {
      assert s[meio - 1] == c && s[meio] == c;
    } else {
      assert s[meio] == c;
    }
  }
}
