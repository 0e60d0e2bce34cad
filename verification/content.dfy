/**
 * Shapes of the content the personalisation endpoint returns, as the two
 * card screens read them. A text field is a string or absent (`None` stands
 * for both `undefined` and `null`); fields the screens only pass along keep
 * their JavaScript value.
 */
module Content {
  import opened Js

  /** A card's `citation` object; only its `label` (here `labelText`) is read. */
  datatype Citation = Citation(labelText: Option<string>)

  /** One raw card record, with every field either screen reads. */
  datatype RawCard = RawCard(
    id: Value,
    title: Option<string>,
    heading: Option<string>,
    sub_heading: Option<string>,
    subHeading: Option<string>,
    content: Option<string>,
    description: Option<string>,
    summary: Option<string>,
    answer: Option<string>,
    citation: Option<Citation>,
    image_url: Option<string>,
    tinu_activation: Value)

  /** The resolved response of the personalisation request: two optional card lists. */
  datatype P13nResponse = P13nResponse(
    dyk_cards: Option<seq<RawCard>>,
    flash_cards: Option<seq<RawCard>>)
}
