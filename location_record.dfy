/**
 * The location record of the master locations JSON collection that both
 * enrichment scripts rewrite.  Every field may be missing from a record
 * (`None`); the scripts read text fields with `loc.get(key, '')`.  A JSON
 * `null` is read like a missing field here.
 * Fields the scripts do not know about travel along in `other`.
 */
module LocationRecord {
  import opened Wrappers

  datatype Record = Record(
    id: Option<int>,
    name: Option<string>,
    descEn: Option<string>,
    category: Option<string>,
    region: Option<string>,
    lat: Option<real>,
    lng: Option<real>,
    image: Option<string>,
    popularity: Option<int>,
    priority: Option<int>,
    other: map<string, string>)

  /** `loc.get(key, '')` on a text field. */
  function TextOf(field: Option<string>): string {
    field.GetOr("")
  }

  /** Python truthiness of an optional number: present and non-zero. */
  predicate Truthy(x: Option<real>) {
    x.Some? && x.value != 0.0
  }

  /** Every field of `a` and `b` agrees except possibly `image`, `popularity` and `priority`. */
  predicate SameSource(a: Record, b: Record) {
    a.id == b.id && a.name == b.name && a.descEn == b.descEn && a.category == b.category
    && a.region == b.region && a.lat == b.lat && a.lng == b.lng && a.other == b.other
  }
}
