/**
 * The "Did you know" screen: it fetches the personalisation response once
 * when it mounts, normalises its `dyk_cards` into display records, and pages
 * through them with two wrap-around tap zones.
 */
module DidYouKnow {
  import opened Js
  import Api
  import opened Content
  import Paging

  /** A normalised "did you know" card. */
  datatype DykCard = DykCard(
    id: Value,
    title: Option<string>,
    sub_heading: string,
    content: string,
    citation: string,
    image_url: Option<string>,
    tinu_activation: Value)

  /** The citation text: the citation's label when there is a citation with a truthy label, else `""`. */
  function CitationText(citation: Option<Citation>): (r: string)
    ensures r != "" <==> citation.Some? && Truthy(citation.value.labelText)
    ensures r != "" ==> r == citation.value.labelText.value
  {
    if citation.Some? then OrElse(citation.value.labelText, "") else ""
  }

  /** Normalise one raw card, each field by its own fallback chain. */
  function NormaliseCard(c: RawCard): (r: DykCard)
    ensures r.id == c.id && r.tinu_activation == c.tinu_activation
    ensures Truthy(c.title) ==> r.title == c.title
    ensures !Truthy(c.title) ==> r.title == c.heading
    ensures r.sub_heading == FirstTruthy([c.sub_heading, c.subHeading], "")
    ensures r.content == FirstTruthy([c.content, c.description, c.summary], "")
    ensures r.citation == CitationText(c.citation)
    ensures r.image_url.None? <==> !Truthy(c.image_url)
    ensures r.image_url == Api.MakeImageUrl(c.image_url)
  {
    OrChain2(c.sub_heading, c.subHeading, "");
    OrChain3(c.content, c.description, c.summary, "");
    DykCard(
      id := c.id,
      title := Or(c.title, c.heading),
      sub_heading := OrElse(Or(c.sub_heading, c.subHeading), ""),
      content := OrElse(Or(Or(c.content, c.description), c.summary), ""),
      citation := CitationText(c.citation),
      image_url := Api.MakeImageUrl(c.image_url),
      tinu_activation := c.tinu_activation)
  }

  /** The cards the screen shows for a response: `dyk_cards` (or none) normalised one by one, in order. */
  function Normalise(res: P13nResponse): (cards: seq<DykCard>)
    ensures res.dyk_cards.None? ==> cards == []
    ensures res.dyk_cards.Some? ==> |cards| == |res.dyk_cards.value|
    ensures res.dyk_cards.Some? ==>
              forall i :: 0 <= i < |cards| ==> cards[i] == NormaliseCard(res.dyk_cards.value[i])
  {
    var raw := res.dyk_cards.GetOr([]);
    seq(|raw|, i requires 0 <= i < |raw| => NormaliseCard(raw[i]))
  }

  /**
   * The screen's state: the `dyk`, `loading` and `index` cells, the `mounted`
   * flag of its fetch effect, and whether the fetch is still in flight.
   */
  class DidYouKnowScreen {
    var dyk: seq<DykCard>
    var loading: bool
    var index: int
    var mounted: bool
    var pending: bool

    /** Cards arrive only together with the end of loading; while mounted, loading lasts as long as the fetch. */
    ghost predicate Valid()
      reads this
    {
      (loading ==> dyk == []) && (mounted ==> loading == pending)
    }

    /** Mounting: empty list, loading, first card, fetch started. */
    constructor ()
      ensures Valid()
      ensures dyk == [] && loading && index == 0 && mounted && pending
    {
      dyk, loading, index := [], true, 0;
      mounted, pending := true, true;
    }

    /**
     * The tap zones (and the list) are rendered only once loading is over and
     * there is a card: never for an empty list, and never before the mount's
     * fetch has settled.
     */
    predicate TapZonesShown()
      reads this
      ensures TapZonesShown() ==> |dyk| > 0
      ensures Valid() && TapZonesShown() ==> !(mounted && pending)
    {
      !loading && |dyk| > 0
    }

    /** The fetch resolved: a still-mounted screen shows the normalised cards and stops loading. */
    method FetchResolved(res: P13nResponse)
      requires Valid() && pending
      modifies this`dyk, this`loading, this`pending
      ensures Valid() && !pending
      ensures old(mounted) ==> dyk == Normalise(res) && !loading
      ensures old(mounted) ==> (TapZonesShown() <==> res.dyk_cards.GetOr([]) != [])
      ensures !old(mounted) ==> dyk == old(dyk) && loading == old(loading)
    {
      pending := false;
      if mounted {
        dyk := Normalise(res);
        loading := false;
      }
    }

    /** The fetch failed: the list stays empty and a still-mounted screen stops loading. */
    method FetchRejected()
      requires Valid() && pending
      modifies this`loading, this`pending
      ensures Valid() && !pending
      ensures old(mounted) ==> dyk == [] && !loading
      ensures old(mounted) ==> !TapZonesShown()
      ensures !old(mounted) ==> loading == old(loading)
    {
      pending := false;
      if mounted {
        loading := false;
      }
    }

    /** Unmounting clears the effect's `mounted` flag; later results are ignored. */
    method Unmount()
      requires Valid()
      modifies this`mounted
      ensures Valid() && !mounted
    {
      mounted := false;
    }

    /** A scroll came to rest on page `page`; the page is the current index. */
    method ScrollEnded(page: int)
      requires Valid()
      modifies this`index
      ensures Valid() && index == page
    {
      index := page;
    }

    /** Left tap zone: the card the list is asked to scroll to. */
    method TapPrev() returns (target: int)
      requires TapZonesShown()
      ensures target == Paging.Prev(index, |dyk|)
      ensures 0 <= index < |dyk| ==> 0 <= target < |dyk| && Paging.Next(target, |dyk|) == index
    {
      target := if index - 1 < 0 then |dyk| - 1 else index - 1;
      if 0 <= index < |dyk| {
        Paging.PrevNextInverse(index, |dyk|);
      }
    }

    /** Right tap zone: the card the list is asked to scroll to. */
    method TapNext() returns (target: int)
      requires TapZonesShown()
      ensures target == Paging.Next(index, |dyk|)
      ensures 0 <= index < |dyk| ==> 0 <= target < |dyk| && Paging.Prev(target, |dyk|) == index
    {
      target := if index + 1 > |dyk| - 1 then 0 else index + 1;
      if 0 <= index < |dyk| {
        Paging.PrevNextInverse(index, |dyk|);
      }
    }
  }
}
