/** The static category lookups of app/utils.py. */
module Utils {
  import opened Wrappers

  /** The six health labels, in order of increasing severity. */
  const CATEGORIES: seq<string> := [
    "Good",
    "Moderate",
    "Unhealthy for Sensitive Groups",
    "Unhealthy",
    "Very Unhealthy",
    "Hazardous"
  ]

  /** Display colour of each label. */
  const COLORS: map<string, string> := map[
    "Good" := "#2ECC71",
    "Moderate" := "#F1C40F",
    "Unhealthy for Sensitive Groups" := "#E67E22",
    "Unhealthy" := "#E74C3C",
    "Very Unhealthy" := "#8E44AD",
    "Hazardous" := "#7D3C98"
  ]

  /** The advisory of each label, the dictionary local to `health_tip`. */
  const TIPS: map<string, string> := map[
    "Good" := "Air quality is satisfactory—enjoy outdoor activities.",
    "Moderate" := "Unusually sensitive people should consider limiting prolonged outdoor exertion.",
    "Unhealthy for Sensitive Groups" := "Sensitive groups reduce prolonged outdoor exertion; consider a mask.",
    "Unhealthy" := "Everyone limit prolonged outdoor exertion; mask recommended.",
    "Very Unhealthy" := "Avoid outdoor activity; use high-quality masks indoors/outdoors.",
    "Hazardous" := "Stay indoors; consider air purifiers; follow local health advisories."
  ]

  /** The advisory for any label the tips do not know. */
  const DEFAULT_TIP: string := "Check local guidance."

  /**
    `health_tip`: total; a listed label gets its own advisory and anything else,
    "Unknown" included, the default one.
   */
  function HealthTip(cat: string): (tip: string)
    ensures cat in CATEGORIES ==> tip == TIPS[cat] && tip != DEFAULT_TIP
    ensures cat !in CATEGORIES ==> tip == DEFAULT_TIP
  {
    if cat in TIPS then TIPS[cat] else DEFAULT_TIP
  }

  /** Six distinct labels; the colours and tips have exactly those keys. */
  lemma LookupTablesAgree()
    ensures |CATEGORIES| == 6
    ensures forall i, j :: 0 <= i < j < |CATEGORIES| ==> CATEGORIES[i] != CATEGORIES[j]
    ensures COLORS.Keys == set c | c in CATEGORIES
    ensures TIPS.Keys == set c | c in CATEGORIES
  {
  }

  /** Position of a label in the severity order, if it is one of the six. */
  function Severity(name: string): (r: Option<nat>)
    ensures r.Some? ==> r.value < |CATEGORIES| && CATEGORIES[r.value] == name
    ensures r.None? <==> name !in CATEGORIES
  {
    IndexOf(CATEGORIES, name)
  }

  function IndexOf(s: seq<string>, x: string): (r: Option<nat>)
    ensures r.Some? ==> r.value < |s| && s[r.value] == x
    ensures r.None? <==> x !in s
  {
    if |s| == 0 then None
    else if s[0] == x then Some(0)
    else match IndexOf(s[1..], x)
      case None => None
      case Some(k) => Some(k + 1)
  }
}
