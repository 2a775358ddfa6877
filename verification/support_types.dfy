/** The notification entity handed to the scheduler.

    The enumeration `SupportType` and the record `SupportDTO` are declared in
    a file that is not part of this model. The scheduler inspects only the
    `type` field of a notification, so a notification is modelled as a kind
    plus an opaque payload that is passed through untouched. */
module SupportTypes {

  /** The kinds the scheduler's `switch` names, plus `Unrecognised` for any
      other value, which the `switch` (having no `default` branch) ignores. */
  datatype Kind = Normal | Video | Ads | Unrecognised

  datatype Notification<P> = Notification(kind: Kind, payload: P)

  /** True for the kinds that get a display delay of their own. */
  predicate Recognised(k: Kind) {
    !k.Unrecognised?
  }
}
