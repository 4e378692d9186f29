/**
 * The pure decision rules of the back end's report endpoints:
 * the seller mapping of `GET /api/sellers` (material list and volume tier)
 * and the points rule of the `GET /api/score` leaderboard.
 */
module Reports {
  import opened Optional
  import Strings

  /** A geographic coordinate, `[latitude, longitude]` in decimal degrees. */
  datatype Coord = Coord(lat: real, lng: real)

  /** The ordinal volume classification of a seller's aggregate listed quantity. */
  datatype Tier = Low | Medium | High {
    /** The label the API sends. */
    function Name(): string {
      match this
      case Low => "Low"
      case Medium => "Medium"
      case High => "High"
    }

    function Rank(): nat {
      match this
      case Low => 0
      case Medium => 1
      case High => 2
    }
  }

  /**
   * One row of the sellers query: a user with at least one active listing, the
   * `GROUP_CONCAT` of their distinct category names (SQL NULL as `None`) and the
   * `SUM` of their quantities (NULL as `None`).
   */
  datatype SellerRow = SellerRow(
    id: nat, name: string, contact: string,
    latitude: real, longitude: real, city: string, district: string,
    items: Option<string>, totalQuantity: Option<real>)

  /** A seller as `GET /api/sellers` returns it: the row plus `items`, `volume` and `location`. */
  datatype Seller = Seller(
    id: nat, name: string, contact: string,
    latitude: real, longitude: real, city: string, district: string,
    items: seq<string>, totalQuantity: Option<real>,
    volume: string, location: Coord)

  /** The volume tier of a total quantity: above 1000 is High, above 300 Medium, otherwise Low. */
  function VolumeTier(totalQuantity: Option<real>): (t: Tier)
    ensures t == High <==> totalQuantity.Some? && totalQuantity.value > 1000.0
    ensures t == Medium <==> totalQuantity.Some? && 300.0 < totalQuantity.value <= 1000.0
    ensures t == Low <==> totalQuantity.None? || totalQuantity.value <= 300.0
  {
    match totalQuantity
    case None => Low   // `null > 1000` and `null > 300` are both false in JavaScript
    case Some(q) => if q > 1000.0 then High else if q > 300.0 then Medium else Low
  }

  /** A larger total never yields a lower tier. */
  lemma VolumeTierMonotone(a: real, b: real)
    requires a <= b
    ensures VolumeTier(Some(a)).Rank() <= VolumeTier(Some(b)).Rank()
  {
  }

  /** `items ? items.split(",") : []`: the comma-separated category names, none for NULL or "". */
  function Items(items: Option<string>): (r: seq<string>)
    ensures items.None? || items.value == "" ==> r == []
    ensures items.Some? && items.value != "" ==>
      |r| >= 1 && Strings.Join(r, ',') == items.value &&
      forall i :: 0 <= i < |r| ==> ',' !in r[i]
  {
    match items
    case None => []
    case Some(s) =>
      if s == "" then []
      else
        Strings.JoinSplit(s, ',');
        Strings.Split(s, ',')
  }

  /** The item list of a concatenation of names is exactly those names. */
  lemma ItemsOfConcat(names: seq<string>)
    requires |names| >= 1 && names != [""]
    requires forall i :: 0 <= i < |names| ==> ',' !in names[i]
    ensures Items(Some(Strings.Join(names, ','))) == names
  {
    Strings.SplitJoin(names, ',');
  }

  /** The mapping of `GET /api/sellers`: keep the row, add the item list, the tier label and the coordinate. */
  function MapSeller(row: SellerRow): (s: Seller)
    ensures s.id == row.id && s.name == row.name && s.contact == row.contact
    ensures s.latitude == row.latitude && s.longitude == row.longitude
    ensures s.city == row.city && s.district == row.district && s.totalQuantity == row.totalQuantity
    ensures s.location == Coord(row.latitude, row.longitude)
    ensures s.volume == VolumeTier(row.totalQuantity).Name()
    ensures s.volume in {"Low", "Medium", "High"}
    ensures s.volume == "High" <==> row.totalQuantity.Some? && row.totalQuantity.value > 1000.0
    ensures s.items == Items(row.items)
  {
    Seller(row.id, row.name, row.contact, row.latitude, row.longitude, row.city, row.district,
           Items(row.items), row.totalQuantity, VolumeTier(row.totalQuantity).Name(),
           Coord(row.latitude, row.longitude))
  }

  /** Leaderboard points for a listing count: six per listing from five listings on, otherwise the count plus two. */
  function Points(count: nat): (p: nat)
    ensures p >= 2
    ensures p >= count
  {
    if count >= 5 then count * 6 else count + 2
  }

  /** Points strictly increase with the listing count. */
  lemma PointsStrictlyIncreasing(a: nat, b: nat)
    requires a < b
    ensures Points(a) < Points(b)
  {
  }
}
