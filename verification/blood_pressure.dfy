/**
 * Blood-pressure classification after the 2023 WHO hypertension scale:
 * the fixed table of eight categories, the ordered rule ladder that picks one
 * of them for a (systolic, diastolic) reading in mmHg, and the status view
 * derived from the chosen category.
 */
module BloodPressure {
  import opened Wrappers
  import opened JsArrays

  /** Severity attached to a category, ordered low < moderate < high < critical. */
  datatype RiskLevel = Low | Moderate | High | Critical

  function Severity(r: RiskLevel): nat {
    match r
    case Low => 0
    case Moderate => 1
    case High => 2
    case Critical => 3
  }

  /** One row of the category table. The range strings are for display only;
      classification uses the numeric thresholds of `RuleCategory`. */
  datatype Category = Category(
    name: string,
    labelText: string,
    systolicRange: string,
    diastolicRange: string,
    color: string,
    bgColor: string,
    borderColor: string,
    riskLevel: RiskLevel,
    recommendations: seq<string>)

  /** The process-wide, never-mutated category table, in its declared order. */
  const WhoCategories: seq<Category> := [
    Category("optimal", "Optimale", "<120", "<80",
             "text-green-700", "bg-green-50", "border-green-200", Low,
             ["Maintenir un mode de vie sain", "Activité physique régulière",
              "Alimentation équilibrée", "Contrôle annuel recommandé"]),
    Category("normal", "Normale", "120-129", "80-84",
             "text-green-600", "bg-green-50", "border-green-200", Low,
             ["Continuer les habitudes saines", "Surveillance annuelle", "Prévention primaire"]),
    Category("high-normal", "Normale-Haute", "130-139", "85-89",
             "text-yellow-700", "bg-yellow-50", "border-yellow-200", Moderate,
             ["Surveillance renforcée", "Modification du mode de vie",
              "Réduction du sel", "Contrôle tous les 6 mois"]),
    Category("grade-1", "HTA Grade 1", "140-159", "90-99",
             "text-orange-700", "bg-orange-50", "border-orange-200", High,
             ["Consultation médicale nécessaire", "Évaluation du risque cardiovasculaire",
              "Modification du mode de vie", "Considérer un traitement antihypertenseur"]),
    Category("grade-2", "HTA Grade 2", "160-179", "100-109",
             "text-red-700", "bg-red-50", "border-red-200", Critical,
             ["Consultation médicale urgente", "Traitement antihypertenseur recommandé",
              "Surveillance rapprochée", "Évaluation complète des organes cibles"]),
    Category("grade-3", "HTA Grade 3", "≥180", "≥110",
             "text-red-800", "bg-red-100", "border-red-300", Critical,
             ["URGENCE MÉDICALE", "Consultation immédiate requise",
              "Traitement antihypertenseur immédiat", "Hospitalisation possible"]),
    Category("isolated-systolic", "HTA Systolique Isolée", "≥140", "<90",
             "text-purple-700", "bg-purple-50", "border-purple-200", High,
             ["Fréquent chez les personnes âgées", "Consultation médicale nécessaire",
              "Évaluation du risque cardiovasculaire", "Traitement selon les guidelines"]),
    Category("isolated-diastolic", "HTA Diastolique Isolée", "<140", "≥90",
             "text-indigo-700", "bg-indigo-50", "border-indigo-200", High,
             ["Plus fréquent chez les jeunes", "Consultation médicale nécessaire",
              "Surveillance régulière", "Modification du mode de vie"])
  ]

  /** The eight category identifiers, in table order. */
  datatype CategoryName =
    | Optimal | Normal | HighNormal | Grade1 | Grade2 | Grade3
    | IsolatedSystolic | IsolatedDiastolic
  {
    /** The `name` string of the category's table row. */
    function Text(): string {
      match this
      case Optimal => "optimal"
      case Normal => "normal"
      case HighNormal => "high-normal"
      case Grade1 => "grade-1"
      case Grade2 => "grade-2"
      case Grade3 => "grade-3"
      case IsolatedSystolic => "isolated-systolic"
      case IsolatedDiastolic => "isolated-diastolic"
    }

    /** The risk level fixed for the category: optimal and normal low, high-normal
        moderate, grade-1 and both isolated categories high, grade-2 and grade-3 critical. */
    function Risk(): RiskLevel {
      match this
      case Optimal | Normal => Low
      case HighNormal => Moderate
      case Grade1 | IsolatedSystolic | IsolatedDiastolic => High
      case Grade2 | Grade3 => Critical
    }

    /** The position of the category's row in the table. */
    function Index(): nat {
      match this
      case Optimal => 0
      case Normal => 1
      case HighNormal => 2
      case Grade1 => 3
      case Grade2 => 4
      case Grade3 => 5
      case IsolatedSystolic => 6
      case IsolatedDiastolic => 7
    }
  }

  /** The table has eight rows, the row at `k.Index()` is named `k.Text()` and carries the
      risk level fixed for `k`, and different categories have different names. */
  lemma WhoTableShape(k: CategoryName, k': CategoryName)
    ensures |WhoCategories| == 8 && k.Index() < 8
    ensures WhoCategories[k.Index()].name == k.Text()
    ensures k != k' ==> k.Text() != k'.Text()
    ensures WhoCategories[k.Index()].riskLevel == k.Risk()
  {
    if k != k' {
      var t, t' := k.Text(), k'.Text();
      if |t| == |t'| {
        // equal lengths: the literals differ in their first or last character
        assert t[0] != t'[0] || t[|t| - 1] != t'[|t'| - 1];
      }
    }
  }

  /** The ordered, first-match-wins rule ladder. A pattern is isolated exactly when one
      value reaches its hypertension threshold and the other does not. */
  function RuleCategory(systolic: int, diastolic: int): (k: CategoryName)
    ensures k in {IsolatedSystolic, IsolatedDiastolic} <==> (systolic >= 140) != (diastolic >= 90)
  {
    if systolic >= 140 && diastolic < 90 then IsolatedSystolic
    else if systolic < 140 && diastolic >= 90 then IsolatedDiastolic
    else if systolic >= 180 || diastolic >= 110 then Grade3
    else if (160 <= systolic <= 179) || (100 <= diastolic <= 109) then Grade2
    else if (140 <= systolic <= 159) || (90 <= diastolic <= 99) then Grade1
    else if (130 <= systolic <= 139) || (85 <= diastolic <= 89) then HighNormal
    else if (120 <= systolic <= 129) && (80 <= diastolic <= 84) then Normal
    else Optimal
  }

  /** The `find` predicate `cat => cat.name === name`. */
  function NameIs(name: string): Category -> bool {
    (cat: Category) => cat.name == name
  }

  /** No two rows share a name. */
  ghost predicate UniqueNames(table: seq<Category>) {
    forall i, j :: 0 <= i < j < |table| ==> table[i].name != table[j].name
  }

  /** In a table without repeated names, looking a name up finds the one row carrying it. */
  lemma FindUniqueName(table: seq<Category>, name: string, i: nat)
    requires UniqueNames(table) && i < |table| && table[i].name == name
    ensures Find(table, NameIs(name)) == Some(table[i])
  {
    var p := NameIs(name);
    assert p(table[i]);
    var j :| 0 <= j < |table| && table[j] == Find(table, p).value && p(table[j]);
    assert table[j].name == table[i].name;
  }

  /** The category whose row is at position `i`. */
  function AtIndex(i: nat): (k: CategoryName)
    requires i < 8
    ensures k.Index() == i
  {
    [Optimal, Normal, HighNormal, Grade1, Grade2, Grade3, IsolatedSystolic, IsolatedDiastolic][i]
  }

  lemma NamesDistinct()
    ensures UniqueNames(WhoCategories)
  {
    WhoTableShape(Optimal, Optimal);
    forall i, j | 0 <= i < j < |WhoCategories| ensures WhoCategories[i].name != WhoCategories[j].name {
      WhoTableShape(AtIndex(i), AtIndex(j));
    }
  }

  /** Looking a category up by its name finds its own row, since no other row carries it. */
  lemma LookupFindsRow(k: CategoryName)
    ensures Find(WhoCategories, NameIs(k.Text())) == Some(WhoCategories[k.Index()])
  {
    WhoTableShape(k, k);
    NamesDistinct();
    FindUniqueName(WhoCategories, k.Text(), k.Index());
  }

  /** Total: every integer pair yields exactly the table row the ladder names. */
  function ClassifyBloodPressure(systolic: int, diastolic: int): (c: Category)
    ensures c in WhoCategories
    ensures c == WhoCategories[RuleCategory(systolic, diastolic).Index()]
    ensures c.name == RuleCategory(systolic, diastolic).Text()
    ensures c.riskLevel == RuleCategory(systolic, diastolic).Risk()
  {
    var k := RuleCategory(systolic, diastolic);
    LookupFindsRow(k);
    WhoTableShape(k, k);
    Find(WhoCategories, NameIs(k.Text())).value
  }

  /** Isolated patterns take precedence over the grading ladder, both ways round:
      isolated-systolic exactly when systolic >= 140 and diastolic < 90 (so 200/80 is not
      grade-3), isolated-diastolic exactly when systolic < 140 and diastolic >= 90. */
  lemma IsolatedPrecedence(systolic: int, diastolic: int)
    ensures RuleCategory(systolic, diastolic) == IsolatedSystolic <==> systolic >= 140 && diastolic < 90
    ensures RuleCategory(systolic, diastolic) == IsolatedDiastolic <==> systolic < 140 && diastolic >= 90
  {
  }

  /** The grades are returned only when both values are elevated; there, grade-3 iff
      systolic >= 180 or diastolic >= 110, else grade-2 iff systolic >= 160 or
      diastolic >= 100, else grade-1. */
  lemma GradeRegion(systolic: int, diastolic: int)
    ensures RuleCategory(systolic, diastolic) in {Grade1, Grade2, Grade3}
            <==> systolic >= 140 && diastolic >= 90
    ensures systolic >= 140 && diastolic >= 90 ==>
      var k := RuleCategory(systolic, diastolic);
      && (k == Grade3 <==> systolic >= 180 || diastolic >= 110)
      && (k == Grade2 <==> !(systolic >= 180 || diastolic >= 110) && (systolic >= 160 || diastolic >= 100))
      && (k == Grade1 <==> systolic < 160 && diastolic < 100)
  {
  }

  /** Below both thresholds: high-normal iff systolic >= 130 or diastolic >= 85; otherwise
      normal iff 120..129 over 80..84; otherwise optimal (so 125/75 is optimal). */
  lemma LowRegion(systolic: int, diastolic: int)
    requires systolic < 140 && diastolic < 90
    ensures var k := RuleCategory(systolic, diastolic);
      && (k == HighNormal <==> systolic >= 130 || diastolic >= 85)
      && (k == Normal <==> systolic < 130 && diastolic < 85 && 120 <= systolic && 80 <= diastolic)
      && (k == Optimal <==> systolic < 130 && diastolic < 85 && (systolic < 120 || diastolic < 80))
  {
  }

  /** The literal boundary cases. */
  lemma BoundaryCases()
    ensures RuleCategory(119, 79) == Optimal && RuleCategory(125, 75) == Optimal
    ensures RuleCategory(120, 80) == Normal && RuleCategory(129, 84) == Normal
    ensures RuleCategory(130, 85) == HighNormal && RuleCategory(139, 89) == HighNormal
    ensures RuleCategory(140, 90) == Grade1 && RuleCategory(159, 99) == Grade1
    ensures RuleCategory(160, 100) == Grade2 && RuleCategory(179, 109) == Grade2
    ensures RuleCategory(180, 110) == Grade3
    ensures RuleCategory(150, 70) == IsolatedSystolic && RuleCategory(200, 80) == IsolatedSystolic
    ensures RuleCategory(110, 95) == IsolatedDiastolic
  {
  }

  /** "The highest level decides": on the ladder, the fixed risk never drops when either
      value rises and the other stays fixed. */
  lemma LadderRiskMonotone(s1: int, s2: int, d1: int, d2: int)
    requires s1 <= s2 && d1 <= d2
    ensures Severity(RuleCategory(s1, d1).Risk()) <= Severity(RuleCategory(s2, d1).Risk())
    ensures Severity(RuleCategory(s1, d1).Risk()) <= Severity(RuleCategory(s1, d2).Risk())
  {
  }

  /** The same for the risk level of the table row the classifier returns. */
  lemma RiskMonotone(s1: int, s2: int, d1: int, d2: int)
    requires s1 <= s2 && d1 <= d2
    ensures Severity(ClassifyBloodPressure(s1, d1).riskLevel) <= Severity(ClassifyBloodPressure(s2, d1).riskLevel)
    ensures Severity(ClassifyBloodPressure(s1, d1).riskLevel) <= Severity(ClassifyBloodPressure(s1, d2).riskLevel)
  {
    LadderRiskMonotone(s1, s2, d1, d2);
  }

  /** The display view of a reading: the category's data plus two derived flags. */
  datatype Status = Status(
    category: string,
    labelText: string,
    color: string,
    bgColor: string,
    borderColor: string,
    riskLevel: RiskLevel,
    recommendations: seq<string>,
    systolicRange: string,
    diastolicRange: string,
    isUrgent: bool,
    needsConsultation: bool)

  function GetBloodPressureStatus(systolic: int, diastolic: int): (st: Status)
    ensures var c := ClassifyBloodPressure(systolic, diastolic);
      && st.category == c.name && st.labelText == c.labelText && st.riskLevel == c.riskLevel
      && st.recommendations == c.recommendations
      && st.color == c.color && st.bgColor == c.bgColor && st.borderColor == c.borderColor
      && st.systolicRange == c.systolicRange && st.diastolicRange == c.diastolicRange
    ensures st.isUrgent <==> st.riskLevel == Critical
    ensures st.needsConsultation <==> st.riskLevel in {High, Critical}
  {
    var c := ClassifyBloodPressure(systolic, diastolic);
    Status(c.name, c.labelText, c.color, c.bgColor, c.borderColor, c.riskLevel,
           c.recommendations, c.systolicRange, c.diastolicRange,
           c.riskLevel == Critical, c.riskLevel in [High, Critical])
  }

  /** The flags on the ladder: the risk is critical exactly for grade-2 and grade-3, that
      is when both values are elevated and one reaches its grade-2 threshold, and it is high
      or critical exactly when either value reaches its hypertension threshold. */
  lemma LadderFlags(systolic: int, diastolic: int)
    ensures var k := RuleCategory(systolic, diastolic);
      && (k.Risk() == Critical <==> k in {Grade2, Grade3})
      && (k.Risk() == Critical <==> systolic >= 140 && diastolic >= 90 && (systolic >= 160 || diastolic >= 100))
      && (k.Risk() in {High, Critical} <==> systolic >= 140 || diastolic >= 90)
  {
  }

  /** The flags in terms of the reading itself: urgency is exactly grade-2 or grade-3,
      consultation is needed exactly when either value reaches its hypertension threshold,
      and urgency implies consultation. */
  lemma StatusFlags(systolic: int, diastolic: int)
    ensures var st := GetBloodPressureStatus(systolic, diastolic);
      && (st.isUrgent <==> RuleCategory(systolic, diastolic) in {Grade2, Grade3})
      && (st.isUrgent <==> systolic >= 140 && diastolic >= 90 && (systolic >= 160 || diastolic >= 100))
      && (st.needsConsultation <==> systolic >= 140 || diastolic >= 90)
      && (st.isUrgent ==> st.needsConsultation)
  {
    LadderFlags(systolic, diastolic);
  }
}
