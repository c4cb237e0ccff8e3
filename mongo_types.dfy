/** What the two Mongoose schemas share: identifiers, dates and the `required`/`enum` validators. */
module MongoTypes {
  import opened Wrappers

  /** A MongoDB ObjectId, by its hexadecimal string. */
  type ObjectId = string

  /** A Date, as milliseconds since 1970-01-01T00:00:00Z. */
  type Instant = int

  /** Mongoose's `required` on a String path: present and not the empty string. */
  predicate RequiredString(v: Option<string>) {
    v.Some? && v.value != ""
  }

  /** An `enum` path with `required`: present and one of the listed values. */
  predicate InEnum(v: Option<string>, domain: seq<string>) {
    v.Some? && v.value in domain
  }
}
