/** The compliance bands the web application hands to the processor, and what
    the processor reports for a loaded table under them. */
module IsoConfig {
  import opened Floats
  import opened Dataset
  import opened KpiProcessor

  /** The entries of `ISO_THRESHOLDS`, in the order they are written. */
  function Bands(): seq<(string, Threshold)> { seq(15, BandEntry) }

  /** Entry `k` of `ISO_THRESHOLDS`: the name of ratio KPI `k` and a band
      that is not empty. */
  function BandEntry(k: int): (e: (string, Threshold))
    requires 0 <= k < 15
    ensures e.0 == FormulaAt(k).name
    ensures e.1.min <= e.1.max
  {
    match k
    case 0 => ("Taux_de_livraison_à_temps", Threshold(0.90, 1.00))
    case 1 => ("Coût_de_transport_par_unité", Threshold(0.00, 5.00))
    case 2 => ("Taux de remplissage des véhicules", Threshold(0.70, 1.00))
    case 3 => ("Kilomètres à vide", Threshold(0.00, 0.20))
    case 4 => ("Taux de rotation des stocks", Threshold(2.0, 10.0))
    case 5 => ("Taux_d_occupation_de_l_entrepôt", Threshold(0.50, 0.90))
    case 6 => ("Productivité picking", Threshold(20.0, 60.0))
    case 7 => ("Précision des stocks", Threshold(0.95, 1.00))
    case 8 => ("Taux de satisfaction client", Threshold(0.90, 1.00))
    case 9 => ("Taux de réclamations", Threshold(0.00, 0.05))
    case 10 => ("Perfect Order Rate", Threshold(0.90, 1.00))
    case 11 => ("Taux de casse", Threshold(0.00, 0.02))
    case 12 => ("Taux d erreurs de préparation", Threshold(0.00, 0.03))
    case 13 => ("Marge opérationnelle", Threshold(0.05, 0.30))
    case _ => ("Coût par commande", Threshold(0.00, 50.00))
  }

  /** The bands are listed under the ratio KPI names, in the same order. */
  lemma BandsFollowFormulas()
    ensures |Bands()| == |Formulas()|
    ensures forall k :: 0 <= k < |Bands()| ==> Bands()[k].0 == Formulas()[k].name && Bands()[k].1.min <= Bands()[k].1.max
  {
    forall k | 0 <= k < |Bands()|
      ensures Bands()[k].0 == Formulas()[k].name && Bands()[k].1.min <= Bands()[k].1.max
    {
      assert Bands()[k] == BandEntry(k);
    }
  }

  /** No name is written twice in `ISO_THRESHOLDS`. */
  lemma BandNamesDistinct()
    ensures forall i, j :: 0 <= i < j < |Bands()| ==> Bands()[i].0 != Bands()[j].0
  {
    BandsFollowFormulas();
    KpiNamesDistinct();
  }

  /** `ISO_THRESHOLDS` as the dict the processor receives. */
  function IsoThresholds(): (m: map<string, Threshold>)
    ensures forall k :: 0 <= k < |Bands()| ==> Bands()[k].0 in m && m[Bands()[k].0] == Bands()[k].1
    ensures forall n :: n in m ==> exists k :: 0 <= k < |Bands()| && Bands()[k].0 == n
  {
    BandNamesDistinct();
    map k | 0 <= k < |Bands()| :: Bands()[k].0 := Bands()[k].1
  }

  /** The names of the ratio KPIs. */
  function FormulaNames(fs: seq<Formula>): (s: set<string>)
    ensures forall i :: 0 <= i < |fs| ==> fs[i].name in s
    ensures forall n :: n in s ==> exists i :: 0 <= i < |fs| && fs[i].name == n
  {
    set i | 0 <= i < |fs| :: fs[i].name
  }

  /** Distinct names make a set of the same size as the list. */
  lemma {:induction false} FormulaNamesCount(fs: seq<Formula>)
    requires forall i, j :: 0 <= i < j < |fs| ==> fs[i].name != fs[j].name
    ensures |FormulaNames(fs)| == |fs|
    decreases |fs|
  {
    if fs != [] {
      var p := fs[..|fs| - 1];
      FormulaNamesCount(p);
      assert FormulaNames(fs) == FormulaNames(p) + {fs[|fs| - 1].name};
      assert fs[|fs| - 1].name !in FormulaNames(p);
    }
  }

  /** There are fifteen ratio KPI names. */
  lemma FormulaNamesFifteen()
    ensures |FormulaNames(Formulas())| == |Formulas()| == 15
  {
    KpiNamesDistinct();
    FormulaNamesCount(Formulas());
  }

  /** The thresholds name exactly the fifteen ratio KPIs; there is none for `date`. */
  lemma ThresholdKeys()
    ensures IsoThresholds().Keys == FormulaNames(Formulas())
    ensures DateKey !in IsoThresholds()
  {
    BandsFollowFormulas();
    KpiNamesNotDate();
  }

  /** Each ratio KPI gets the band written beside its name. */
  lemma ThresholdOf(k: nat)
    requires k < |Formulas()|
    ensures Formulas()[k].name in IsoThresholds() && IsoThresholds()[Formulas()[k].name] == Bands()[k].1
  {
    BandsFollowFormulas();
  }

  /** No band is empty. */
  lemma BandsNonEmpty()
    ensures forall n :: n in IsoThresholds() ==> IsoThresholds()[n].min <= IsoThresholds()[n].max
  {
    BandsFollowFormulas();
  }

  /** `kpis` is `date`, then one number for each formula of `fs`, in order and
      under the formula's name: the shape of what `calculate_kpis` returns. */
  predicate DateThenNumbers(kpis: KpiMapping, fs: seq<Formula>) {
    && |kpis| == 1 + |fs| && kpis[0].0 == DateKey
    && forall k :: 0 <= k < |fs| ==> kpis[k + 1].0 == fs[k].name && kpis[k + 1].1.Number?
  }

  /** A mapping of `date` followed by one number per formula of `fs`
      validates without error when `date` has no band. */
  lemma ReportSucceeds(th: map<string, Threshold>, fs: seq<Formula>, kpis: KpiMapping)
    requires DateKey !in th
    requires DateThenNumbers(kpis, fs)
    ensures Validation(th, kpis).Ok?
  {
    forall i | 0 <= i < |kpis| && Kept(th, kpis[i].0) ensures kpis[i].1.Number? {
      if i > 0 {
        var k := i - 1;
        assert kpis[k + 1].0 == fs[k].name && kpis[k + 1].1.Number?;
      }
    }
    ValidationSucceeds(th, kpis);
  }

  /** With bands for exactly the names of `fs`, none of them `date`, the
      report on a mapping of `date` followed by one number per formula has
      exactly those names as keys. */
  lemma ReportKeys(th: map<string, Threshold>, fs: seq<Formula>, kpis: KpiMapping)
    requires th.Keys == FormulaNames(fs)
    requires forall k :: 0 <= k < |fs| ==> fs[k].name != DateKey
    requires DateThenNumbers(kpis, fs)
    ensures Validation(th, kpis).Ok?
    ensures Validation(th, kpis).value.Keys == FormulaNames(fs)
    ensures |Validation(th, kpis).value| == |FormulaNames(fs)|
  {
    NoBandForDate(th, fs);
    ReportSucceeds(th, fs, kpis);
    var v := Validation(th, kpis);
    ValidationKeys(th, kpis);
    forall n | n in FormulaNames(fs) ensures n in v.value {
      var k :| 0 <= k < |fs| && fs[k].name == n;
      assert kpis[k + 1].0 == fs[k].name && Kept(th, n);
    }
  }

  /** Bands for exactly the names of `fs`, none of them `date`, leave `date`
      without a band. */
  lemma NoBandForDate(th: map<string, Threshold>, fs: seq<Formula>)
    requires th.Keys == FormulaNames(fs)
    requires forall k :: 0 <= k < |fs| ==> fs[k].name != DateKey
    ensures DateKey !in th
  {
  }

  /** What `ReportKeys` needs of the mapping `calculate_kpis` returns. */
  lemma KpisShape(p: KPIProcessor, t: Table)
    requires WellFormed(t) && Computable(t) && t.rows != []
    ensures DateThenNumbers(p.CalculateKpis(t).value, Formulas())
  {
  }

  /** Computing, then validating a table the formulas can read, with bands for
      exactly the ratio KPIs, reports each of the fifteen exactly once. */
  lemma CalculateThenValidateKeys(p: KPIProcessor, t: Table)
    requires p.isoThresholds.Keys == FormulaNames(Formulas())
    requires WellFormed(t) && Computable(t) && t.rows != []
    ensures var v := Validation(p.isoThresholds, p.CalculateKpis(t).value);
            v.Ok? && v.value.Keys == FormulaNames(Formulas()) && |v.value| == |Formulas()|
  {
    KpisShape(p, t);
    FormulaReport(p.isoThresholds, p.CalculateKpis(t).value);
  }

  /** `ReportKeys` for the fifteen ratio KPIs. */
  lemma FormulaReport(th: map<string, Threshold>, kpis: KpiMapping)
    requires th.Keys == FormulaNames(Formulas())
    requires DateThenNumbers(kpis, Formulas())
    ensures var v := Validation(th, kpis);
            v.Ok? && v.value.Keys == FormulaNames(Formulas()) && |v.value| == |Formulas()|
  {
    KpiNamesNotDate();
    ReportKeys(th, Formulas(), kpis);
    FormulaNamesFifteen();
  }

  /** In that report each ratio KPI is judged against its own band on the
      quotient of its columns' sums; a zero denominator does not abort the
      report but gives a non-compliant entry. */
  lemma CalculateThenValidateEntries(p: KPIProcessor, t: Table, k: nat)
    requires p.isoThresholds.Keys == FormulaNames(Formulas())
    requires WellFormed(t) && Computable(t) && t.rows != [] && k < |Formulas()|
    ensures var v := Validation(p.isoThresholds, p.CalculateKpis(t).value);
            && v.Ok? && Formulas()[k].name in v.value
            && v.value[Formulas()[k].name] == Judge(p.isoThresholds[Formulas()[k].name], SumRatio(t, Formulas()[k]))
            && (Sum(Column(t.rows, Formulas()[k].denominator)) == 0.0 ==> v.value[Formulas()[k].name].status == NonConforme)
  {
    var kpis := p.CalculateKpis(t).value;
    CalculateThenValidateKeys(p, t);
    CalculatedKeysDistinct(p, t);
    assert kpis[k + 1] == (Formulas()[k].name, Number(SumRatio(t, Formulas()[k])));
    ValidationEntry(p.isoThresholds, kpis, k + 1);
  }

  /** The application's processor: every ratio KPI is judged against the band
      `ISO_THRESHOLDS` gives it. */
  lemma AppReport(p: KPIProcessor, t: Table, k: nat)
    requires p.isoThresholds == IsoThresholds()
    requires WellFormed(t) && Load(t).Ok? && t.rows != [] && k < |Formulas()|
    ensures Computable(t)
    ensures var v := Validation(p.isoThresholds, p.CalculateKpis(t).value);
            && v.Ok? && |v.value| == |Formulas()|
            && Formulas()[k].name in v.value
            && v.value[Formulas()[k].name] == Judge(Bands()[k].1, SumRatio(t, Formulas()[k]))
  {
    ThresholdKeys();
    LoadedIsComputable(t);
    CalculateThenValidateKeys(p, t);
    CalculateThenValidateEntries(p, t, k);
    ThresholdOf(k);
  }

  /** Two rows with 90 and 95 deliveries on time out of 100 each: the rate is
      0.925, inside the band [0.90, 1.00] that `ISO_THRESHOLDS` gives it. */
  lemma DeliveryRateExample()
    ensures Divide(Mean([90.0, 95.0]), Mean([100.0, 100.0])) == Finite(0.925)
    ensures Bands()[0] == ("Taux_de_livraison_à_temps", Threshold(0.90, 1.00))
    ensures Judge(Bands()[0].1, Finite(0.925)) == Verdict(Finite(0.925), true, Conforme)
  {
    assert Sum([95.0]) == 95.0;
    assert Sum([90.0, 95.0]) == 185.0;
    assert Sum([100.0]) == 100.0;
    assert Sum([100.0, 100.0]) == 200.0;
  }
}
