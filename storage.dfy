/**
 * The browser's `localStorage`, reduced to the two slots the front end
 * uses, and the shape of what the "creations" slot holds.
 */
module Storage {
  import opened Wrappers
  import opened CreationCard

  /** One creation as `JSON.stringify` writes it: the date has become a string. */
  datatype StoredCreation = StoredCreation(id: string, url: string, prompt: string, kind: Kind, createdAt: string)

  /**
   * What `JSON.parse` makes of the "creations" slot: an array of records,
   * or anything it throws on or that has no `map` (not JSON, not an array).
   */
  datatype CreationsPayload = JsonArray(records: seq<StoredCreation>) | Unparseable

  /**
   * The host's date conversions: `Date.prototype.toJSON` (used by
   * `JSON.stringify`) and the `new Date(string)` constructor.
   */
  datatype DateCodec = DateCodec(toJson: Timestamp -> string, parse: string -> Timestamp)

  /** Parsing a date's JSON form gives the same instant back. */
  ghost predicate Lossless(dates: DateCodec) {
    forall t :: dates.parse(dates.toJson(t)) == t
  }

  /** `localStorage`: `None` is a key that `getItem` reports as null. */
  class LocalStorage {
    /** The "user_credits" slot. */
    var userCredits: Option<string>
    /** The "creations" slot. */
    var creations: Option<CreationsPayload>

    constructor (userCredits: Option<string>, creations: Option<CreationsPayload>)
      ensures this.userCredits == userCredits && this.creations == creations
    {
      this.userCredits := userCredits;
      this.creations := creations;
    }
  }
}
