/** The classifier: maps an AQI value to the colour and health level of its
    category on the US EPA Air Quality Index scale. */
module AqiScale {

  /** The `{color, level}` pair returned for one AQI value. */
  datatype Classification = Classification(color: string, level: string)

  /** The six AQI categories of the US EPA Technical Assistance Document for
      the Reporting of Daily Air Quality, in ascending order of severity. */
  const Categories: seq<Classification> := [
    Classification("#00e400", "Good"),
    Classification("#ffff00", "Moderate"),
    Classification("#ff7e00", "Unhealthy for Sensitive Groups"),
    Classification("#ff0000", "Unhealthy"),
    Classification("#8f3f97", "Very Unhealthy"),
    Classification("#7e0023", "Hazardous")
  ]

  /** Inclusive upper bounds of the first five categories; the last category
      has no upper bound and the first has no lower bound. */
  const UpperBounds: seq<int> := [50, 100, 150, 200, 300]

  /** AQI `aqi` falls in category `k` of the table. */
  predicate InBand(k: nat, aqi: int)
    requires k < |Categories|
  {
    (k == 0 || UpperBounds[k - 1] < aqi) && (k == |UpperBounds| || aqi <= UpperBounds[k])
  }

  /** `interpret_aqi`: an ascending chain of threshold tests, first match wins. */
  function InterpretAqi(aqi: int): (c: Classification)
    ensures c in Categories
  {
    if aqi <= 50 then Classification("#00e400", "Good")
    else if aqi <= 100 then Classification("#ffff00", "Moderate")
    else if aqi <= 150 then Classification("#ff7e00", "Unhealthy for Sensitive Groups")
    else if aqi <= 200 then Classification("#ff0000", "Unhealthy")
    else if aqi <= 300 then Classification("#8f3f97", "Very Unhealthy")
    else Classification("#7e0023", "Hazardous")
  }

  /** The severity rank of a category: its position in `Categories`. */
  function Severity(c: Classification): (k: nat)
    requires c in Categories
    ensures k < |Categories| && Categories[k] == c
  {
    if c == Categories[0] then 0
    else if c == Categories[1] then 1
    else if c == Categories[2] then 2
    else if c == Categories[3] then 3
    else if c == Categories[4] then 4
    else 5
  }

  /** No two categories share a colour or a level. */
  lemma CategoriesDistinct(i: nat, j: nat)
    requires i < |Categories| && j < |Categories| && i != j
    ensures Categories[i].color != Categories[j].color
    ensures Categories[i].level != Categories[j].level
  {
  }

  /** Every AQI lies in exactly one band of the table. */
  lemma BandsPartition(aqi: int)
    ensures exists k: nat :: k < |Categories| && InBand(k, aqi)
    ensures forall k: nat, m: nat :: k < |Categories| && m < |Categories| && InBand(k, aqi) && InBand(m, aqi) ==> k == m
  {
    var k: nat := if aqi <= 50 then 0 else if aqi <= 100 then 1 else if aqi <= 150 then 2
                  else if aqi <= 200 then 3 else if aqi <= 300 then 4 else 5;
    assert InBand(k, aqi);
  }

  /** The classifier returns category `k` exactly when the AQI lies in band
      `k`: in particular it is total, its upper bounds 50, 100, 150, 200 and
      300 are inclusive, and everything above 300 is Hazardous. */
  lemma InterpretAqiBands(aqi: int, k: nat)
    requires k < |Categories|
    ensures InterpretAqi(aqi) == Categories[k] <==> InBand(k, aqi)
  {
  }

  /** A larger AQI never maps to a less severe category. */
  lemma InterpretAqiMonotone(a: int, b: int)
    requires a <= b
    ensures Severity(InterpretAqi(a)) <= Severity(InterpretAqi(b))
  {
  }

  /** The boundary values of the scale: each upper bound belongs to its own
      category and the next value to the next category; 0 is Good and 500 is
      Hazardous. */
  lemma BoundaryValues()
    ensures forall k: nat :: k < |UpperBounds| ==>
      InterpretAqi(UpperBounds[k]) == Categories[k] && InterpretAqi(UpperBounds[k] + 1) == Categories[k + 1]
    ensures InterpretAqi(0).level == "Good" && InterpretAqi(500).level == "Hazardous"
  {
  }
}
