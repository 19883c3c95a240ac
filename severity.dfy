/**
 * The magnitude thresholds shared by the prediction panel (js/model.js) and the
 * histogram (docs/js/visualization.js): five interpretation bands and a four-colour
 * palette in which the two highest bands share purple.
 */
module Severity {

  /** The five bands [-inf,5), [5,6), [6,7), [7,8), [8,+inf). */
  datatype Band = Light | Moderate | Strong | Major | Great

  predicate InBand(m: real, b: Band)
  {
    match b
    case Light => m < 5.0
    case Moderate => 5.0 <= m < 6.0
    case Strong => 6.0 <= m < 7.0
    case Major => 7.0 <= m < 8.0
    case Great => 8.0 <= m
  }

  /** The interpretation text of a band: its name, " earthquake. ", then its effect. */
  function Message(b: Band): string
  {
    Name(b) + " earthquake. " + Effect(b)
  }

  function Name(b: Band): string
  {
    match b
    case Light => "Light"
    case Moderate => "Moderate"
    case Strong => "Strong"
    case Major => "Major"
    case Great => "Great"
  }

  function Effect(b: Band): string
  {
    match b
    case Light => "Felt by many people, no damage."
    case Moderate => "Slight damage to buildings."
    case Strong => "Damage to well-built structures."
    case Major => "Serious damage over large areas."
    case Great => "Major damage across vast areas."
  }

  /** The interpretation ladder of the prediction panel, evaluated first match. */
  function Interpretation(m: real): (text: string)
    ensures exists b :: InBand(m, b) && text == Message(b)
  {
    if m < 5.0 then Message(Light)
    else if m < 6.0 then Message(Moderate)
    else if m < 7.0 then Message(Strong)
    else if m < 8.0 then Message(Major)
    else Message(Great)
  }

  datatype Colour = Green | Orange | Red | Purple

  function Hex(c: Colour): string
  {
    match c
    case Green => "#4CAF50"
    case Orange => "#FF9800"
    case Red => "#F44336"
    case Purple => "#9C27B0"
  }

  /** The colour a band is drawn in; Major and Great share purple. */
  function BandColour(b: Band): Colour
  {
    match b
    case Light => Green
    case Moderate => Orange
    case Strong => Red
    case Major => Purple
    case Great => Purple
  }

  /** The colour ladder: below 5 green, below 6 orange, below 7 red, otherwise purple. */
  function ColourOf(m: real): (c: Colour)
    ensures c == Purple <==> 7.0 <= m
  {
    if m < 5.0 then Green
    else if m < 6.0 then Orange
    else if m < 7.0 then Red
    else Purple
  }

  /** No two bands carry the same text, so the text identifies the band. */
  lemma MessagesDistinct(b1: Band, b2: Band)
    ensures Message(b1) == Message(b2) <==> b1 == b2
  {
    if Message(b1) == Message(b2) {
      assert Message(b1)[0] == Name(b1)[0] && Message(b1)[1] == Name(b1)[1];
      assert Message(b2)[0] == Name(b2)[0] && Message(b2)[1] == Name(b2)[1];
    }
  }

  /** The bands are exhaustive and mutually exclusive, and the interpretation ladder names
      exactly the band a magnitude lies in. */
  lemma InterpretationLadder(m: real, b: Band)
    ensures exists b' :: InBand(m, b')
    ensures Interpretation(m) == Message(b) <==> InBand(m, b)
  {
    var b' :| InBand(m, b') && Interpretation(m) == Message(b');
    MessagesDistinct(b, b');
  }

  /** Below 7 the colour ladder follows the band; at 7 and above both bands are purple. */
  lemma ColourAgreesWithBand(m: real, b: Band)
    requires InBand(m, b)
    ensures ColourOf(m) == BandColour(b)
    ensures b == Major || b == Great ==> ColourOf(m) == Purple
  {
  }

  /** The four palette entries are pairwise distinct. */
  lemma HexDistinct(c1: Colour, c2: Colour)
    ensures Hex(c1) == Hex(c2) <==> c1 == c2
  {
    match c1
    case Green =>
    case Orange =>
    case Red =>
    case Purple =>
  }
}
