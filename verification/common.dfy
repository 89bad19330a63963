/** Small vocabulary shared by the wallet's presentation components. */
module Common {

  /** A value that may be absent, like a JavaScript lookup that yields `undefined`. */
  datatype Option<+T> = None | Some(value: T)

  /** The two colour families the components use for a signed quantity:
      green for gains and incoming value, red for losses and outgoing value. */
  datatype Tone = Gain | Loss

  /** How many fractional digits a number is printed with (`toFixed(places)`),
      or the host's locale-grouped form (`toLocaleString()`). The digit strings
      themselves are not modelled, only the style that was chosen. */
  datatype Digits = Fixed(places: nat) | LocaleGrouped

  /** The sign rule shared by the token card and the chart header: zero counts
      as non-negative. */
  predicate NonNegative(change: real) {
    change >= 0.0
  }
}
