/** The KPI processor: the schema check made when a CSV file is loaded, the
    fifteen ratio KPIs and the date computed from the table, and the check of
    each KPI against its compliance band. */
module KpiProcessor {
  import opened Wrappers
  import opened Floats
  import opened Dataset
  import Dates

  // The column names `load_csv` requires, as the CSV header spells them.
  const ColEntrepot := "Entrepôt"
  const ColKilometresAVide := "Kilomètres_à_vide"
  const ColCapaciteTotalKmParcourus := "Capacité_total_km_parcourus"
  const ColStockMoyen := "Stock_moyen"
  const ColSortiesAnnuelles := "Sorties_annuelles"
  const ColSurfaceOccupee := "Surface_occupée"
  const ColSurfaceTotale := "Surface_totale"
  const ColLignesPreparees := "Lignes_préparées"
  const ColHeuresTravaillees := "Heures_travaillées"
  const ColStockPhysique := "Stock_physique"
  const ColStockTheorique := "Stock_théorique"
  const ColClientsSatisfaits := "Clients_satisfaits"
  const ColTotalClientsInterroges := "Total_clients_interrogés"
  const ColNombreDeReclamations := "Nombre_de_réclamations"
  const ColTotalCommandes := "Total_commandes"
  const ColCommandesParfaites := "Commandes_parfaites"
  const ColValeurMarchandisesEndommagees := "Valeur_marchandises_endommagées"
  const ColNombreDeLivraisonsATemps := "Nombre_de_livraisons_à_temps"
  const ColNombreTotalDeLivraisons := "Nombre_total_de_livraisons"
  const ColCoutTotalTransport := "Coût_total_transport"
  const ColNombreUnitesTransportees := "Nombre_unités_transportées"
  const ColVolumeUtilise := "Volume_utilisé"
  const ColCapaciteTotale := "Capacité_totale"
  const ColErreursDePicking := "Erreurs_de_picking"
  const ColTotalLignesPreparees := "Total_lignes_préparées"
  const ColCoutsTotaux := "Coûts_totaux"
  const ColResultatOperationnel := "Résultat_opérationnel"
  const ColChiffreDAffaires := "Chiffre_d_affaires"

  // The names of the ratio KPIs, as `calculate_kpis` spells them.
  const KpiTauxDeLivraisonATemps := "Taux_de_livraison_à_temps"
  const KpiCoutDeTransportParUnite := "Coût_de_transport_par_unité"
  const KpiTauxDeRemplissageDesVehicules := "Taux de remplissage des véhicules"
  const KpiKilometresAVide := "Kilomètres à vide"
  const KpiTauxDeRotationDesStocks := "Taux de rotation des stocks"
  const KpiTauxDOccupationDeLEntrepot := "Taux_d_occupation_de_l_entrepôt"
  const KpiProductivitePicking := "Productivité picking"
  const KpiPrecisionDesStocks := "Précision des stocks"
  const KpiTauxDeSatisfactionClient := "Taux de satisfaction client"
  const KpiTauxDeReclamations := "Taux de réclamations"
  const KpiPerfectOrderRate := "Perfect Order Rate"
  const KpiTauxDeCasse := "Taux de casse"
  const KpiTauxDErreursDePreparation := "Taux d erreurs de préparation"
  const KpiMargeOperationnelle := "Marge opérationnelle"
  const KpiCoutParCommande := "Coût par commande"

  /** The columns `load_csv` insists on besides `Date`, in the order it
      checks them. */
  function DataColumns(): seq<string> { seq(28, DataColumnAt) }

  /** Data column `i`, in the order of the list `load_csv` checks. */
  function DataColumnAt(i: int): string
    requires 0 <= i < 28
  {
    match i
    case 0 => ColEntrepot
    case 1 => ColKilometresAVide
    case 2 => ColCapaciteTotalKmParcourus
    case 3 => ColStockMoyen
    case 4 => ColSortiesAnnuelles
    case 5 => ColSurfaceOccupee
    case 6 => ColSurfaceTotale
    case 7 => ColLignesPreparees
    case 8 => ColHeuresTravaillees
    case 9 => ColStockPhysique
    case 10 => ColStockTheorique
    case 11 => ColClientsSatisfaits
    case 12 => ColTotalClientsInterroges
    case 13 => ColNombreDeReclamations
    case 14 => ColTotalCommandes
    case 15 => ColCommandesParfaites
    case 16 => ColValeurMarchandisesEndommagees
    case 17 => ColNombreDeLivraisonsATemps
    case 18 => ColNombreTotalDeLivraisons
    case 19 => ColCoutTotalTransport
    case 20 => ColNombreUnitesTransportees
    case 21 => ColVolumeUtilise
    case 22 => ColCapaciteTotale
    case 23 => ColErreursDePicking
    case 24 => ColTotalLignesPreparees
    case 25 => ColCoutsTotaux
    case 26 => ColResultatOperationnel
    case _ => ColChiffreDAffaires
  }

  /** `Date` is not among the data columns. */
  lemma DateNotData()
    ensures forall n :: 0 <= n < |DataColumns()| ==> DataColumns()[n] != DateColumn
  {
  }

  /** All the columns `load_csv` insists on: `Date` first, and only there,
      then the data columns. */
  function RequiredColumns(): (cols: seq<string>)
    ensures |cols| == 29 && cols[0] == DateColumn
    ensures cols[1..] == DataColumns()
    ensures forall i :: 1 <= i < |cols| ==> cols[i] != DateColumn && cols[i] in DataColumns()
  {
    DateNotData();
    [DateColumn] + DataColumns()
  }

  /** A ratio KPI: the mean of `numerator` over the mean of `denominator`. */
  datatype Formula = Formula(name: string, numerator: string, denominator: string)

  /** The fifteen ratio KPIs of `calculate_kpis`, in the order it lists them. */
  function Formulas(): seq<Formula> { seq(15, FormulaAt) }

  /** Ratio KPI `k`: its name, its numerator column, its denominator column. */
  function FormulaAt(k: int): Formula
    requires 0 <= k < 15
  {
    match k
    case 0 => Formula(KpiTauxDeLivraisonATemps, ColNombreDeLivraisonsATemps, ColNombreTotalDeLivraisons)
    case 1 => Formula(KpiCoutDeTransportParUnite, ColCoutTotalTransport, ColNombreUnitesTransportees)
    case 2 => Formula(KpiTauxDeRemplissageDesVehicules, ColVolumeUtilise, ColCapaciteTotale)
    case 3 => Formula(KpiKilometresAVide, ColKilometresAVide, ColCapaciteTotalKmParcourus)
    case 4 => Formula(KpiTauxDeRotationDesStocks, ColSortiesAnnuelles, ColStockMoyen)
    case 5 => Formula(KpiTauxDOccupationDeLEntrepot, ColSurfaceOccupee, ColSurfaceTotale)
    case 6 => Formula(KpiProductivitePicking, ColLignesPreparees, ColHeuresTravaillees)
    case 7 => Formula(KpiPrecisionDesStocks, ColStockPhysique, ColStockTheorique)
    case 8 => Formula(KpiTauxDeSatisfactionClient, ColClientsSatisfaits, ColTotalClientsInterroges)
    case 9 => Formula(KpiTauxDeReclamations, ColNombreDeReclamations, ColTotalCommandes)
    case 10 => Formula(KpiPerfectOrderRate, ColCommandesParfaites, ColTotalCommandes)
    case 11 => Formula(KpiTauxDeCasse, ColValeurMarchandisesEndommagees, ColChiffreDAffaires)
    case 12 => Formula(KpiTauxDErreursDePreparation, ColErreursDePicking, ColTotalLignesPreparees)
    case 13 => Formula(KpiMargeOperationnelle, ColResultatOperationnel, ColChiffreDAffaires)
    case _ => Formula(KpiCoutParCommande, ColCoutsTotaux, ColTotalCommandes)
  }

  /** The key of the one KPI entry that is not a ratio. */
  const DateKey := "date"

  const Conforme := "Conforme"
  const NonConforme := "Non Conforme"

  // ---------------------------------------------------------------------------
  // Loading

  /** Why `load_csv` fails: pandas' KeyError when there is no `Date` column to
      convert, or the ValueError naming the first required column missing. */
  datatype LoadError = KeyError(key: string) | MissingColumn(column: string)

  const MissingPrefix := "Colonne manquante : "

  /** The text of the exception, as the request handler reports it. */
  function Message(e: LoadError): (m: string)
    ensures e.MissingColumn? ==> |m| == |MissingPrefix| + |e.column|
                                 && m[..|MissingPrefix|] == MissingPrefix && m[|MissingPrefix|..] == e.column
  {
    match e
    case KeyError(k) => "'" + k + "'"
    case MissingColumn(c) => MissingPrefix + c
  }

  /** The first name of `required` that is not among `columns`, if any. */
  function FirstMissing(required: seq<string>, columns: seq<string>): (r: Option<string>)
    ensures r.None? <==> forall i :: 0 <= i < |required| ==> required[i] in columns
    ensures r.Some? ==> exists i :: 0 <= i < |required| && required[i] == r.value
                          && r.value !in columns
                          && forall j :: 0 <= j < i ==> required[j] in columns
  {
    if required == [] then None
    else if required[0] !in columns then Some(required[0])
    else
      var r := FirstMissing(required[1..], columns);
      assert r.Some? ==> exists i :: 1 <= i < |required| && required[i] == r.value
                           && r.value !in columns
                           && forall j :: 1 <= j < i ==> required[j] in columns;
      r
  }

  /** Where the columns of formula `k` stand among the data columns: it
      reads `DataColumnAt(PositionAt(k).0)` over `DataColumnAt(PositionAt(k).1)`. */
  function PositionAt(k: int): (nat, nat)
    requires 0 <= k < 15
  {
    match k
    case 0 => (17, 18)
    case 1 => (19, 20)
    case 2 => (21, 22)
    case 3 => (1, 2)
    case 4 => (4, 3)
    case 5 => (5, 6)
    case 6 => (7, 8)
    case 7 => (9, 10)
    case 8 => (11, 12)
    case 9 => (13, 14)
    case 10 => (15, 14)
    case 11 => (16, 27)
    case 12 => (23, 24)
    case 13 => (26, 27)
    case _ => (25, 14)
  }

  function Positions(): seq<(nat, nat)> { seq(15, PositionAt) }

  // The facts about the tables above are checked row by row: one lemma per
  // formula, so each proof deals with the literals of a single row.
  // `PositionAt`, `KpiIndex`, `RowChecked` and `Row0`..`Row14` add nothing to
  // the model: they restate the formula table so that no single proof has to
  // unfold all fifteen rows and all twenty-eight column names at once, which
  // would not fit the solver's budget. The lemmas that matter are
  // `KpiNamesNotDate`, `KpiNamesDistinct` and `FormulaColumnsAreRequired`.

  /** Where the KPI called `n` stands in the table; 15 when no KPI has that name. */
  function KpiIndex(n: string): nat {
    if n == KpiTauxDeLivraisonATemps then 0
    else if n == KpiCoutDeTransportParUnite then 1
    else if n == KpiTauxDeRemplissageDesVehicules then 2
    else if n == KpiKilometresAVide then 3
    else if n == KpiTauxDeRotationDesStocks then 4
    else if n == KpiTauxDOccupationDeLEntrepot then 5
    else if n == KpiProductivitePicking then 6
    else if n == KpiPrecisionDesStocks then 7
    else if n == KpiTauxDeSatisfactionClient then 8
    else if n == KpiTauxDeReclamations then 9
    else if n == KpiPerfectOrderRate then 10
    else if n == KpiTauxDeCasse then 11
    else if n == KpiTauxDErreursDePreparation then 12
    else if n == KpiMargeOperationnelle then 13
    else if n == KpiCoutParCommande then 14
    else 15
  }

  /** Formula `k` reads two data columns, and its name leads back to it. */
  predicate RowChecked(k: int)
    requires 0 <= k < 15
  {
    var p := PositionAt(k);
    p.0 < 28 && p.1 < 28 &&
    DataColumnAt(p.0) == FormulaAt(k).numerator && DataColumnAt(p.1) == FormulaAt(k).denominator &&
    KpiIndex(FormulaAt(k).name) == k
  }

  lemma Row0() ensures RowChecked(0) { }
  lemma Row1() ensures RowChecked(1) { }
  lemma Row2() ensures RowChecked(2) { }
  lemma Row3() ensures RowChecked(3) { }
  lemma Row4() ensures RowChecked(4) { }
  lemma Row5() ensures RowChecked(5) { }
  lemma Row6() ensures RowChecked(6) { }
  lemma Row7() ensures RowChecked(7) { }
  lemma Row8() ensures RowChecked(8) { }
  lemma Row9() ensures RowChecked(9) { }
  lemma Row10() ensures RowChecked(10) { }
  lemma Row11() ensures RowChecked(11) { }
  lemma Row12() ensures RowChecked(12) { }
  lemma Row13() ensures RowChecked(13) { }
  lemma Row14() ensures RowChecked(14) { }

  /** Every row of the formula table has been checked. */
  lemma RowsChecked()
    ensures forall k :: 0 <= k < 15 ==> RowChecked(k)
  {
    forall k | 0 <= k < 15
      ensures RowChecked(k)
    {
      if k == 0 { Row0(); }
      else if k == 1 { Row1(); }
      else if k == 2 { Row2(); }
      else if k == 3 { Row3(); }
      else if k == 4 { Row4(); }
      else if k == 5 { Row5(); }
      else if k == 6 { Row6(); }
      else if k == 7 { Row7(); }
      else if k == 8 { Row8(); }
      else if k == 9 { Row9(); }
      else if k == 10 { Row10(); }
      else if k == 11 { Row11(); }
      else if k == 12 { Row12(); }
      else if k == 13 { Row13(); }
      else { Row14(); }
    }
  }

  /** `f` reads the columns at positions `p` of `data`. */
  predicate ReadsAt(data: seq<string>, f: Formula, p: (nat, nat)) {
    p.0 < |data| && p.1 < |data| && data[p.0] == f.numerator && data[p.1] == f.denominator
  }

  /** Every formula reads two required columns, neither of them `Date`. */
  predicate FormulaColumnsRequired() {
    |Positions()| == |Formulas()| &&
    forall k :: 0 <= k < |Formulas()| ==> ReadsAt(DataColumns(), Formulas()[k], Positions()[k])
  }

  lemma FormulaColumnsAreRequired()
    ensures FormulaColumnsRequired()
  {
    RowsChecked();
    forall k | 0 <= k < |Formulas()|
      ensures ReadsAt(DataColumns(), Formulas()[k], Positions()[k])
    {
      assert RowChecked(k);
    }
  }

  /** Every row has a cell in each column some formula reads: what
      `calculate_kpis` needs so that no column lookup fails. */
  predicate Computable(t: Table) {
    forall k :: 0 <= k < |Formulas()| ==>
      HasColumn(t.rows, Formulas()[k].numerator) && HasColumn(t.rows, Formulas()[k].denominator)
  }

  /** `load_csv` on an already parsed table: the `Date` conversion fails first
      when there is no `Date` column; then the first missing required column
      is reported; otherwise the table comes back as it went in. */
  function Load(t: Table): (r: Result<Table, LoadError>)
    ensures r.Ok? <==> forall i :: 0 <= i < |RequiredColumns()| ==> RequiredColumns()[i] in t.columns
    ensures r.Ok? ==> r.value == t
    ensures r == Err(KeyError(DateColumn)) <==> DateColumn !in t.columns
    ensures r.Err? && DateColumn in t.columns ==> r.error.MissingColumn?
    ensures r.Err? && r.error.MissingColumn? ==>
              var c := r.error.column;
              c != DateColumn && c !in t.columns &&
              exists i :: 0 <= i < |RequiredColumns()| && RequiredColumns()[i] == c &&
                forall j :: 0 <= j < i ==> RequiredColumns()[j] in t.columns
  {
    assert RequiredColumns()[0] == DateColumn;
    if DateColumn !in t.columns then Err(KeyError(DateColumn))
    else match FirstMissing(RequiredColumns(), t.columns)
      case None => Ok(t)
      case Some(c) => Err(MissingColumn(c))
  }

  /** Formulas reading columns that are all present and none of them `Date`
      find a cell in every row of a well-formed table. */
  lemma PresentColumnsReadable(t: Table, data: seq<string>, fs: seq<Formula>, pos: seq<(nat, nat)>)
    requires WellFormed(t)
    requires forall i :: 0 <= i < |data| ==> data[i] in t.columns && data[i] != DateColumn
    requires |pos| == |fs| && forall k :: 0 <= k < |fs| ==> ReadsAt(data, fs[k], pos[k])
    ensures forall k :: 0 <= k < |fs| ==> HasColumn(t.rows, fs[k].numerator) && HasColumn(t.rows, fs[k].denominator)
  {
  }

  /** A table that loads has every column the formulas read. */
  lemma LoadedIsComputable(t: Table)
    requires WellFormed(t) && Load(t).Ok?
    ensures Computable(t)
  {
    FormulaColumnsAreRequired();
    DateNotData();
    forall i | 0 <= i < |DataColumns()| ensures DataColumns()[i] in t.columns {
      assert RequiredColumns()[i + 1] == DataColumns()[i];
    }
    PresentColumnsReadable(t, DataColumns(), Formulas(), Positions());
  }

  // ---------------------------------------------------------------------------
  // KPI computation

  datatype KpiValue = Text(s: string) | Number(f: Float)

  /** A Python dict from KPI name to value; it keeps insertion order. */
  type KpiMapping = seq<(string, KpiValue)>

  predicate DistinctKeys(m: KpiMapping) {
    forall i, j :: 0 <= i < j < |m| ==> m[i].0 != m[j].0
  }

  /** `calculate_kpis` on a table without rows: `iloc[0]` raises IndexError. */
  datatype CalcError = IndexError

  /** The sum-of-cells quotient that a formula's ratio of means equals. */
  function SumRatio(t: Table, f: Formula): Float
    requires HasColumn(t.rows, f.numerator) && HasColumn(t.rows, f.denominator)
  {
    Divide(Sum(Column(t.rows, f.numerator)), Sum(Column(t.rows, f.denominator)))
  }

  /** The ratio entries for the formulas `fs`, each the quotient of the
      numerator column's mean by the denominator column's mean. */
  function Ratios(t: Table, fs: seq<Formula>): (kv: KpiMapping)
    requires |t.rows| > 0
    requires forall i :: 0 <= i < |fs| ==> HasColumn(t.rows, fs[i].numerator) && HasColumn(t.rows, fs[i].denominator)
    ensures |kv| == |fs|
    ensures forall i :: 0 <= i < |fs| ==> kv[i] == (fs[i].name, Number(SumRatio(t, fs[i])))
  {
    if fs == [] then []
    else
      assert forall i :: 1 <= i < |fs| ==> fs[1..][i - 1] == fs[i];
      [Ratio(t, fs[0])] + Ratios(t, fs[1..])
  }

  /** One ratio entry: the mean of the numerator column over the mean of the
      denominator column, which is the quotient of their sums. */
  function Ratio(t: Table, f: Formula): (e: (string, KpiValue))
    requires |t.rows| > 0
    requires HasColumn(t.rows, f.numerator) && HasColumn(t.rows, f.denominator)
    ensures e == (f.name, Number(SumRatio(t, f)))
  {
    var num, den := Column(t.rows, f.numerator), Column(t.rows, f.denominator);
    RatioOfMeans(num, den);
    (f.name, Number(Divide(Mean(num), Mean(den))))
  }

  /** No ratio KPI is called `date`. */
  lemma KpiNamesNotDate()
    ensures forall i :: 0 <= i < |Formulas()| ==> Formulas()[i].name != DateKey
  {
    RowsChecked();
    assert KpiIndex(DateKey) == 15;
    forall i | 0 <= i < |Formulas()|
      ensures Formulas()[i].name != DateKey
    {
      assert RowChecked(i);
    }
  }

  /** The fifteen ratio KPI names are pairwise distinct. */
  lemma KpiNamesDistinct()
    ensures forall i, j :: 0 <= i < j < |Formulas()| ==> Formulas()[i].name != Formulas()[j].name
  {
    RowsChecked();
    forall i, j | 0 <= i < j < |Formulas()|
      ensures Formulas()[i].name != Formulas()[j].name
    {
      assert RowChecked(i) && RowChecked(j);
    }
  }

  // ---------------------------------------------------------------------------
  // Validation

  /** A compliance band, both ends included. */
  datatype Threshold = Threshold(min: real, max: real)

  /** One entry of the report `validate_kpis` returns. */
  datatype Verdict = Verdict(value: Float, isoCompliant: bool, status: string)

  /** `validate_kpis` compares a text value with a float bound: Python raises TypeError. */
  datatype ValidateError = TypeError(key: string)

  /** The entries `validate_kpis` looks at: those with a band, except `date`. */
  predicate Kept(th: map<string, Threshold>, k: string) {
    k in th && k != DateKey
  }

  /** What `validate_kpis` records for a value and its band. */
  function Judge(th: Threshold, v: Float): (r: Verdict)
    ensures r.value == v
    ensures r.isoCompliant <==> v.Finite? && th.min <= v.x <= th.max
    ensures r.status == Conforme <==> r.isoCompliant
    ensures r.status == NonConforme <==> !r.isoCompliant
  {
    var compliant := InBand(th.min, th.max, v);
    Verdict(v, compliant, if compliant then Conforme else NonConforme)
  }

  /** The report after `validate_kpis` has gone through the entries of `kpis`
      in order, or the error raised at the first kept entry holding text. */
  function Validation(th: map<string, Threshold>, kpis: KpiMapping): (r: Result<map<string, Verdict>, ValidateError>)
    ensures r.Ok? ==> forall k :: k in r.value ==> Kept(th, k) && r.value[k] == Judge(th[k], r.value[k].value)
    ensures r.Err? ==> Kept(th, r.error.key)
    decreases |kpis|
  {
    if kpis == [] then Ok(map[])
    else
      var rest := Validation(th, kpis[..|kpis| - 1]);
      var (k, v) := kpis[|kpis| - 1];
      if rest.Err? || !Kept(th, k) then rest
      else match v
        case Text(_) => Err(TypeError(k))
        case Number(f) => Ok(rest.value[k := Judge(th[k], f)])
  }

  /** Once an entry has raised, the later entries change nothing. */
  lemma {:induction false} ValidationErrorPersists(th: map<string, Threshold>, kpis: KpiMapping, i: nat)
    requires i <= |kpis| && Validation(th, kpis[..i]).Err?
    ensures Validation(th, kpis) == Validation(th, kpis[..i])
    decreases |kpis|
  {
    if i < |kpis| {
      var p := kpis[..|kpis| - 1];
      assert p[..i] == kpis[..i];
      ValidationErrorPersists(th, p, i);
    } else {
      assert kpis[..i] == kpis;
    }
  }

  /** Validation fails exactly when some kept entry holds text. */
  lemma {:induction false} ValidationSucceeds(th: map<string, Threshold>, kpis: KpiMapping)
    ensures Validation(th, kpis).Ok? <==>
              forall i :: 0 <= i < |kpis| && Kept(th, kpis[i].0) ==> kpis[i].1.Number?
    decreases |kpis|
  {
    if kpis != [] {
      var p := kpis[..|kpis| - 1];
      ValidationSucceeds(th, p);
      assert forall i :: 0 <= i < |p| ==> p[i] == kpis[i];
    }
  }

  /** The error names the first kept entry that holds text. */
  lemma {:induction false} ValidationErrorIsFirst(th: map<string, Threshold>, kpis: KpiMapping)
    requires Validation(th, kpis).Err?
    ensures exists i :: 0 <= i < |kpis| && kpis[i].0 == Validation(th, kpis).error.key
              && Kept(th, kpis[i].0) && kpis[i].1.Text?
              && forall j :: 0 <= j < i ==> !(Kept(th, kpis[j].0) && kpis[j].1.Text?)
    decreases |kpis|
  {
    var p := kpis[..|kpis| - 1];
    assert forall i :: 0 <= i < |p| ==> p[i] == kpis[i];
    if Validation(th, p).Err? {
      ValidationErrorIsFirst(th, p);
    } else {
      ValidationSucceeds(th, p);
    }
  }

  /** The report's keys are exactly the kept keys of the mapping. */
  lemma {:induction false} ValidationKeys(th: map<string, Threshold>, kpis: KpiMapping)
    requires Validation(th, kpis).Ok?
    ensures forall k :: k in Validation(th, kpis).value <==>
              exists i :: 0 <= i < |kpis| && kpis[i].0 == k && Kept(th, k)
    decreases |kpis|
  {
    if kpis != [] {
      var p := kpis[..|kpis| - 1];
      assert forall i :: 0 <= i < |p| ==> p[i] == kpis[i];
      ValidationKeys(th, p);
      var m := Validation(th, kpis).value;
      forall k | exists i :: 0 <= i < |kpis| && kpis[i].0 == k && Kept(th, k)
        ensures k in m
      {
        var i :| 0 <= i < |kpis| && kpis[i].0 == k && Kept(th, k);
        if i < |p| {
          assert p[i].0 == k;
        }
      }
    }
  }

  /** Each kept key gets the verdict for its own value and its own band. */
  lemma {:induction false} ValidationEntry(th: map<string, Threshold>, kpis: KpiMapping, i: nat)
    requires DistinctKeys(kpis) && Validation(th, kpis).Ok?
    requires i < |kpis| && Kept(th, kpis[i].0)
    ensures kpis[i].1.Number?
    ensures kpis[i].0 in Validation(th, kpis).value
    ensures Validation(th, kpis).value[kpis[i].0] == Judge(th[kpis[i].0], kpis[i].1.f)
    decreases |kpis|
  {
    ValidationSucceeds(th, kpis);
    var p := kpis[..|kpis| - 1];
    if i < |p| {
      assert forall j :: 0 <= j < |p| ==> p[j] == kpis[j];
      assert DistinctKeys(p);
      ValidationEntry(th, p, i);
      assert kpis[i].0 != kpis[|kpis| - 1].0;
    }
  }

  // ---------------------------------------------------------------------------
  // The required-column loop of `load_csv`

  /** Scans `required` in order and stops at the first name not in `columns`. */
  method FindFirstMissing(required: seq<string>, columns: seq<string>) returns (m: Option<string>)
    ensures m == FirstMissing(required, columns)
  {
    var i := 0;
    while i < |required|
      invariant 0 <= i <= |required|
      invariant FirstMissing(required[i..], columns) == FirstMissing(required, columns)
    {
      if required[i] !in columns {
        return Some(required[i]);
      }
      assert required[i..][1..] == required[i + 1..];
      i := i + 1;
    }
    return None;
  }

  // ---------------------------------------------------------------------------
  // The processor

  class KPIProcessor {
    /** The compliance bands, by KPI name; set once, never changed. */
    const isoThresholds: map<string, Threshold>

    constructor (isoThresholds: map<string, Threshold>)
      ensures this.isoThresholds == isoThresholds
    {
      this.isoThresholds := isoThresholds;
    }

    /** `load_csv` after parsing: the `Date` column, then each required
        column in the listed order. */
    method LoadCsv(t: Table) returns (r: Result<Table, LoadError>)
      ensures r == Load(t)
    {
      if DateColumn !in t.columns {
        return Err(KeyError(DateColumn));
      }
      var missing := FindFirstMissing(RequiredColumns(), t.columns);
      match missing
      case Some(c) => return Err(MissingColumn(c));
      case None => return Ok(t);
    }

    /** `calculate_kpis`: the first row's date, then the fifteen ratios, each
        of which equals the quotient of the two columns' sums. */
    function CalculateKpis(t: Table): (r: Result<KpiMapping, CalcError>)
      requires WellFormed(t) && Computable(t)
      ensures r.Err? <==> t.rows == []
      ensures r.Ok? ==> |r.value| == 1 + |Formulas()|
      ensures r.Ok? ==> r.value[0].0 == DateKey && r.value[0].1.Text?
                        && Dates.Parse(r.value[0].1.s) == Some(t.rows[0].date)
      ensures r.Ok? ==> forall i :: 0 <= i < |Formulas()| ==>
                          r.value[i + 1] == (Formulas()[i].name, Number(SumRatio(t, Formulas()[i])))
    {
      if t.rows == [] then Err(IndexError)
      else
        var d := t.rows[0].date;
        Dates.ParseFormat(d);
        Ok([(DateKey, Text(Dates.Format(d)))] + Ratios(t, Formulas()))
    }

    /** `validate_kpis`: walks the entries in order, growing the report. */
    method ValidateKpis(kpis: KpiMapping) returns (r: Result<map<string, Verdict>, ValidateError>)
      ensures r == Validation(isoThresholds, kpis)
    {
      var results: map<string, Verdict> := map[];
      var i := 0;
      while i < |kpis|
        invariant 0 <= i <= |kpis|
        invariant Validation(isoThresholds, kpis[..i]) == Ok(results)
      {
        var (kpi, value) := kpis[i];
        assert kpis[..i + 1][..i] == kpis[..i];
        if kpi in isoThresholds && kpi != DateKey {
          var threshold := isoThresholds[kpi];
          if value.Text? {
            ValidationErrorPersists(isoThresholds, kpis, i + 1);
            return Err(TypeError(kpi));
          }
          var compliant := InBand(threshold.min, threshold.max, value.f);
          results := results[kpi := Verdict(value.f, compliant, if compliant then Conforme else NonConforme)];
        }
        i := i + 1;
      }
      assert kpis[..i] == kpis;
      return Ok(results);
    }
  }

  /** A mapping of `date` followed by one entry per formula of `fs` has
      distinct keys when the formula names are distinct and none is `date`. */
  lemma DateThenFormulasDistinct(fs: seq<Formula>, kpis: KpiMapping)
    requires forall i :: 0 <= i < |fs| ==> fs[i].name != DateKey
    requires forall i, j :: 0 <= i < j < |fs| ==> fs[i].name != fs[j].name
    requires |kpis| == 1 + |fs| && kpis[0].0 == DateKey
    requires forall k :: 0 <= k < |fs| ==> kpis[k + 1].0 == fs[k].name
    ensures DistinctKeys(kpis)
  {
    forall i, j | 0 <= i < j < |kpis| ensures kpis[i].0 != kpis[j].0 {
      var b := j - 1;
      assert kpis[b + 1].0 == fs[b].name;
      if i > 0 {
        var a := i - 1;
        assert kpis[a + 1].0 == fs[a].name;
      }
    }
  }

  /** The mapping `calculate_kpis` returns names each KPI once, so as a dict
      it loses nothing. */
  lemma CalculatedKeysDistinct(p: KPIProcessor, t: Table)
    requires WellFormed(t) && Computable(t) && t.rows != []
    ensures DistinctKeys(p.CalculateKpis(t).value)
  {
    KpiNamesNotDate();
    KpiNamesDistinct();
    DateThenFormulasDistinct(Formulas(), p.CalculateKpis(t).value);
  }
}
