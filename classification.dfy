/**
 * Population classification (`getColorForFeature` and `colorSchemes`): each
 * administrative level has four ascending thresholds that cut populations
 * into five buckets, each with a colour and a legend label.
 */
module Classification {
  import opened Options

  /** The three administrative levels: province, canton and district. */
  datatype Level = Provincia | Canton | Distrito

  /** The level named by the string `nivel`, if it names one. */
  function ParseLevel(nivel: string): (l: Option<Level>)
    ensures l == Some(Provincia) <==> nivel == "provincia"
    ensures l == Some(Canton) <==> nivel == "canton"
    ensures l == Some(Distrito) <==> nivel == "distrito"
  {
    if nivel == "provincia" then Some(Provincia)
    else if nivel == "canton" then Some(Canton)
    else if nivel == "distrito" then Some(Distrito)
    else None
  }

  /** The colour of a feature whose bucket cannot be decided. */
  const NoDataColor: string := "#ccc"

  /** The colours and legend labels of one level, bucket by bucket. */
  datatype Scheme = Scheme(colors: seq<string>, ranges: seq<string>)

  function SchemeOf(l: Level): (s: Scheme)
    ensures |s.colors| == 5 && |s.ranges| == 5
  {
    match l
    case Provincia => Scheme(
      ["#f7fbff", "#c6dbef", "#6baed6", "#2171b5", "#08306b"],
      ["< 500,000", "500,000 - 800,000", "800,000 - 1,200,000", "1,200,000 - 1,500,000", "> 1,500,000"])
    case Canton => Scheme(
      ["#f7fcf5", "#c7e9c0", "#74c476", "#238b45", "#005a32"],
      ["< 30,000", "30,000 - 80,000", "80,000 - 150,000", "150,000 - 250,000", "> 250,000"])
    case Distrito => Scheme(
      ["#fff5f0", "#fcbba1", "#fb6a4a", "#cb181d", "#67000d"],
      ["< 5,000", "5,000 - 15,000", "15,000 - 30,000", "30,000 - 60,000", "> 60,000"])
  }

  /** The bucket boundaries of a level, compared with strict `<`. */
  function Thresholds(l: Level): (t: seq<int>)
    ensures |t| == 4 && 0 < t[0] < t[1] < t[2] < t[3]
  {
    match l
    case Provincia => [500000, 800000, 1200000, 1500000]
    case Canton => [30000, 80000, 150000, 250000]
    case Distrito => [5000, 15000, 30000, 60000]
  }

  /** Bucket i holds the populations from threshold i - 1 (inclusive) up to threshold i (exclusive). */
  predicate InBucket(l: Level, p: int, i: int)
  {
    0 <= i < 5 &&
    (i == 0 || Thresholds(l)[i - 1] <= p) &&
    (i == 4 || p < Thresholds(l)[i])
  }

  /** The index into the level's colours that the `if` chain of `getColorForFeature` picks. */
  function Bucket(l: Level, p: int): (i: nat)
    ensures i < 5 && InBucket(l, p, i)
  {
    var t := Thresholds(l);
    if p < t[0] then 0
    else if p < t[1] then 1
    else if p < t[2] then 2
    else if p < t[3] then 3
    else 4
  }

  /** The buckets do not overlap: a population lies in one bucket only. */
  lemma BucketUnique(l: Level, p: int, i: int)
    requires InBucket(l, p, i)
    ensures i == Bucket(l, p)
  {
  }

  /** A larger population never lands in a lower bucket. */
  lemma BucketMonotone(l: Level, p: int, q: int)
    requires p <= q
    ensures Bucket(l, p) <= Bucket(l, q)
  {
  }

  /** A population equal to a threshold lands in the bucket above it. */
  lemma ThresholdGoesUp(l: Level, i: nat)
    requires i < 4
    ensures Bucket(l, Thresholds(l)[i]) == i + 1
  {
  }

  /**
   * `getColorForFeature`: the sentinel colour when the population is missing
   * or zero or the level is unknown; otherwise the colour of the one bucket
   * the population lies in.
   */
  function ColorForFeature(poblacion: Option<int>, nivel: string): (c: string)
    ensures poblacion == None || poblacion == Some(0) || ParseLevel(nivel) == None ==> c == NoDataColor
    ensures poblacion.Some? && poblacion.value != 0 && ParseLevel(nivel).Some? ==>
      var l := ParseLevel(nivel).value;
      c != NoDataColor &&
      forall i :: InBucket(l, poblacion.value, i) ==> c == SchemeOf(l).colors[i]
  {
    match poblacion
    case None => NoDataColor
    case Some(p) =>
      if p == 0 then NoDataColor
      else match ParseLevel(nivel)
        case None => NoDataColor
        case Some(l) =>
          forall i | InBucket(l, p, i) ensures i == Bucket(l, p) {
            BucketUnique(l, p, i);
          }
          SchemeOf(l).colors[Bucket(l, p)]
  }

  /** Within a level the five colours are distinct, so a colour names its bucket. */
  lemma ColorsDistinct(l: Level, i: nat, j: nat)
    requires i < 5 && j < 5 && SchemeOf(l).colors[i] == SchemeOf(l).colors[j]
    ensures i == j
  {
  }
}
