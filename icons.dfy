/** The Weather Company icon codes and the first-match lookup that turns one
    into a Home Assistant weather condition. */
module Icons {
  import opened Wrappers
  import opened Json

  /** The Home Assistant weather conditions the table names. */
  datatype Condition =
    | ClearNight | Cloudy | Exceptional | Fog | Hail | Lightning | LightningRainy
    | PartlyCloudy | Pouring | Rainy | Snowy | SnowyRainy | Sunny | Windy | WindyVariant

  /** The condition as Home Assistant spells it. */
  function ConditionName(c: Condition): string {
    match c
    case ClearNight => "clear-night"
    case Cloudy => "cloudy"
    case Exceptional => "exceptional"
    case Fog => "fog"
    case Hail => "hail"
    case Lightning => "lightning"
    case LightningRainy => "lightning-rainy"
    case PartlyCloudy => "partlycloudy"
    case Pouring => "pouring"
    case Rainy => "rainy"
    case Snowy => "snowy"
    case SnowyRainy => "snowy-rainy"
    case Sunny => "sunny"
    case Windy => "windy"
    case WindyVariant => "windy-variant"
  }

  type IconTable = seq<(Condition, seq<int>)>

  /** The icon table in its declaration order, which is the order the lookup
      visits it in. Code 44 means "not available" and is in no list. */
  const ICON_CONDITION_MAP: IconTable := [
    (ClearNight, [31, 33]),
    (Cloudy, [26, 27, 28]),
    (Exceptional, [0, 1, 2, 19, 21, 22, 36, 43]),
    (Fog, [20]),
    (Hail, [17]),
    (Lightning, []),
    (LightningRainy, [3, 4, 37, 38, 47]),
    (PartlyCloudy, [29, 30]),
    (Pouring, [40]),
    (Rainy, [9, 11, 12, 39, 45]),
    (Snowy, [13, 14, 15, 16, 41, 42, 46]),
    (SnowyRainy, [5, 6, 7, 8, 10, 18, 25, 35]),
    (Sunny, [32, 34]),
    (Windy, [23, 24]),
    (WindyVariant, [])
  ]

  /** Python's `code in codes`: some element compares equal to the code. */
  predicate Holds(codes: seq<int>, code: Json) {
    exists k :: 0 <= k < |codes| && EqualsInt(code, codes[k])
  }

  /** The condition of the first entry at or after `i` whose list holds the code. */
  function FirstMatch(table: IconTable, code: Json, i: nat): Option<Condition>
    requires i <= |table|
    decreases |table| - i
  {
    if i == |table| then None
    else if Holds(table[i].1, code) then Some(table[i].0)
    else FirstMatch(table, code, i + 1)
  }

  /** The lookup answers None exactly when no entry from `i` on holds the code,
      and otherwise the condition of the first entry that does. */
  lemma {:induction false} FirstMatchSpec(table: IconTable, code: Json, i: nat)
    requires i <= |table|
    decreases |table| - i
    ensures FirstMatch(table, code, i).None? <==> forall j :: i <= j < |table| ==> !Holds(table[j].1, code)
    ensures FirstMatch(table, code, i).Some? ==>
      exists j :: i <= j < |table| && table[j].0 == FirstMatch(table, code, i).value &&
        Holds(table[j].1, code) && forall j' :: i <= j' < j ==> !Holds(table[j'].1, code)
  {
    if i == |table| {
    } else if Holds(table[i].1, code) {
      assert FirstMatch(table, code, i) == Some(table[i].0);
    } else {
      FirstMatchSpec(table, code, i + 1);
      assert FirstMatch(table, code, i) == FirstMatch(table, code, i + 1);
    }
  }

  /** The condition an icon code stands for, or None when the table does not list it. */
  function ConditionOf(code: Json): Option<Condition> {
    FirstMatch(ICON_CONDITION_MAP, code, 0)
  }

  /** The lookup loop: visit the entries in order and stop at the first list
      holding the code. */
  method FindCondition(table: IconTable, code: Json) returns (r: Option<Condition>)
    ensures r == FirstMatch(table, code, 0)
  {
    var i := 0;
    while i < |table|
      invariant i <= |table|
      invariant FirstMatch(table, code, i) == FirstMatch(table, code, 0)
    {
      if Holds(table[i].1, code) {
        return Some(table[i].0);
      }
      i := i + 1;
    }
    return None;
  }

  /** `_iconCode_to_condition`: the loop run over the icon table. */
  method IconCodeToCondition(code: Json) returns (r: Option<Condition>)
    ensures r == ConditionOf(code)
  {
    r := FindCondition(ICON_CONDITION_MAP, code);
  }

  /** Entry `i` of the table lists the integer code `n`. */
  predicate ListedAt(i: int, n: int) {
    0 <= i < |ICON_CONDITION_MAP| && n in ICON_CONDITION_MAP[i].1
  }

  /** Every code 0..47 other than 44 is listed somewhere. */
  lemma IconCodesCovered(n: int)
    requires 0 <= n <= 47 && n != 44
    ensures exists i :: ListedAt(i, n)
  {
    if n in ICON_CONDITION_MAP[0].1 { assert ListedAt(0, n); }
    else if n in ICON_CONDITION_MAP[1].1 { assert ListedAt(1, n); }
    else if n in ICON_CONDITION_MAP[2].1 { assert ListedAt(2, n); }
    else if n in ICON_CONDITION_MAP[3].1 { assert ListedAt(3, n); }
    else if n in ICON_CONDITION_MAP[4].1 { assert ListedAt(4, n); }
    else if n in ICON_CONDITION_MAP[6].1 { assert ListedAt(6, n); }
    else if n in ICON_CONDITION_MAP[7].1 { assert ListedAt(7, n); }
    else if n in ICON_CONDITION_MAP[8].1 { assert ListedAt(8, n); }
    else if n in ICON_CONDITION_MAP[9].1 { assert ListedAt(9, n); }
    else if n in ICON_CONDITION_MAP[10].1 { assert ListedAt(10, n); }
    else if n in ICON_CONDITION_MAP[11].1 { assert ListedAt(11, n); }
    else if n in ICON_CONDITION_MAP[12].1 { assert ListedAt(12, n); }
    else { assert ListedAt(13, n); }
  }

  /** No code is listed twice, and every listed code is in 0..47 but is not 44:
      together with the lemma above, the lists partition {0..47} \ {44}. */
  lemma IconListsDisjoint(i: int, j: int, n: int)
    requires ListedAt(i, n) && ListedAt(j, n)
    ensures i == j && 0 <= n <= 47 && n != 44
  {
    ListedCodesInRange(i, n);
    ListsDisjoint(i, j, n);
  }

  lemma ListedCodesInRange(i: int, n: int)
    requires ListedAt(i, n)
    ensures 0 <= n <= 47 && n != 44
  {
  }

  lemma ListsDisjoint(i: int, j: int, n: int)
    requires ListedAt(i, n) && ListedAt(j, n)
    ensures i == j
  {
    ListedAtOwner(i, n);
    ListedAtOwner(j, n);
  }

  /** The position of the entry meant to list each code, written out code by code. */
  function Owner(n: int): int {
    match n
    case 31 | 33 => 0
    case 26 | 27 | 28 => 1
    case 0 | 1 | 2 | 19 | 21 | 22 | 36 | 43 => 2
    case 20 => 3
    case 17 => 4
    case 3 | 4 | 37 | 38 | 47 => 6
    case 29 | 30 => 7
    case 40 => 8
    case 9 | 11 | 12 | 39 | 45 => 9
    case 13 | 14 | 15 | 16 | 41 | 42 | 46 => 10
    case 5 | 6 | 7 | 8 | 10 | 18 | 25 | 35 => 11
    case 32 | 34 => 12
    case 23 | 24 => 13
    case _ => -1
  }

  lemma ListedAtOwner(i: int, n: int)
    requires ListedAt(i, n)
    ensures Owner(n) == i
  {
    if i < 7 {
      ListedAtOwnerLow(i, n);
    } else {
      ListedAtOwnerHigh(i, n);
    }
  }

  lemma ListedAtOwnerLow(i: int, n: int)
    requires ListedAt(i, n) && i < 7
    ensures Owner(n) == i
  {
    var codes := ICON_CONDITION_MAP[i].1;
    if i == 0 {
      assert codes == [31, 33];
    } else if i == 1 {
      assert codes == [26, 27, 28];
    } else if i == 2 {
      assert codes == [0, 1, 2, 19, 21, 22, 36, 43];
    } else if i == 3 {
      assert codes == [20];
    } else if i == 4 {
      assert codes == [17];
    } else if i == 6 {
      assert codes == [3, 4, 37, 38, 47];
    } else {
      assert false;
    }
  }

  lemma ListedAtOwnerHigh(i: int, n: int)
    requires ListedAt(i, n) && i >= 7
    ensures Owner(n) == i
  {
    var codes := ICON_CONDITION_MAP[i].1;
    if i == 7 {
      assert codes == [29, 30];
    } else if i == 8 {
      assert codes == [40];
    } else if i == 9 {
      assert codes == [9, 11, 12, 39, 45];
    } else if i == 10 {
      assert codes == [13, 14, 15, 16, 41, 42, 46];
    } else if i == 11 {
      assert codes == [5, 6, 7, 8, 10, 18, 25, 35];
    } else if i == 12 {
      assert codes == [32, 34];
    } else if i == 13 {
      assert codes == [23, 24];
    } else {
      assert false;
    }
  }

  /** Each condition names one entry. */
  lemma IconConditionsDistinct(i: int, j: int)
    requires 0 <= i < |ICON_CONDITION_MAP| && 0 <= j < |ICON_CONDITION_MAP|
    requires ICON_CONDITION_MAP[i].0 == ICON_CONDITION_MAP[j].0
    ensures i == j
  {
  }

  /** An integer code is mapped exactly when it is one of 0..47 other than 44,
      and then to the condition of the one entry listing it. */
  lemma {:induction false} ConditionOfInt(n: int)
    ensures ConditionOf(JInt(n)).Some? <==> 0 <= n <= 47 && n != 44
    ensures forall i :: ListedAt(i, n) ==> ConditionOf(JInt(n)) == Some(ICON_CONDITION_MAP[i].0)
  {
    forall i | 0 <= i < |ICON_CONDITION_MAP|
      ensures Holds(ICON_CONDITION_MAP[i].1, JInt(n)) <==> ListedAt(i, n)
    {
      var codes := ICON_CONDITION_MAP[i].1;
      if n in codes {
        var k :| 0 <= k < |codes| && codes[k] == n;
        assert EqualsInt(JInt(n), codes[k]);
      }
    }
    FirstMatchSpec(ICON_CONDITION_MAP, JInt(n), 0);
    if 0 <= n <= 47 && n != 44 {
      IconCodesCovered(n);
    }
    forall i | ListedAt(i, n)
      ensures ConditionOf(JInt(n)) == Some(ICON_CONDITION_MAP[i].0)
    {
      var r := ConditionOf(JInt(n));
      var j :| 0 <= j < |ICON_CONDITION_MAP| && ICON_CONDITION_MAP[j].0 == r.value
        && Holds(ICON_CONDITION_MAP[j].1, JInt(n));
      IconListsDisjoint(i, j, n);
    }
    if ConditionOf(JInt(n)).Some? {
      var j :| 0 <= j < |ICON_CONDITION_MAP| && Holds(ICON_CONDITION_MAP[j].1, JInt(n));
      IconListsDisjoint(j, j, n);
    }
  }

  /** The lightning and windy-variant lists are empty, so the lookup never
      returns those conditions, whatever the code. */
  lemma NeverLightningNorWindyVariant(code: Json)
    ensures ConditionOf(code) != Some(Lightning)
    ensures ConditionOf(code) != Some(WindyVariant)
  {
    forall j | 0 <= j < |ICON_CONDITION_MAP| && ICON_CONDITION_MAP[j].0 == Lightning
      ensures j == 5
    {
      IconConditionsDistinct(j, 5);
    }
    forall j | 0 <= j < |ICON_CONDITION_MAP| && ICON_CONDITION_MAP[j].0 == WindyVariant
      ensures j == 14
    {
      IconConditionsDistinct(j, 14);
    }
    EmptyListNeverMatches(ICON_CONDITION_MAP, code, Lightning, 5);
    EmptyListNeverMatches(ICON_CONDITION_MAP, code, WindyVariant, 14);
  }

  /** A condition whose only entry has an empty list is never the result. */
  lemma EmptyListNeverMatches(table: IconTable, code: Json, c: Condition, e: nat)
    requires e < |table| && table[e] == (c, [])
    requires forall j :: 0 <= j < |table| && table[j].0 == c ==> j == e
    ensures FirstMatch(table, code, 0) != Some(c)
  {
    FirstMatchSpec(table, code, 0);
  }
}
