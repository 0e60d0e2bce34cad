/**
 * The flash card screen: it fetches the personalisation response once when
 * it mounts, normalises its `flash_cards` into display records, and pages
 * through them with two wrap-around tap zones.
 */
module FlashCards {
  import opened Js
  import Api
  import opened Content
  import Paging

  /** A normalised flash card; unlike a "did you know" card it has no citation. */
  datatype FlashCard = FlashCard(
    id: Value,
    title: Option<string>,
    sub_heading: string,
    content: string,
    image_url: Option<string>,
    tinu_activation: Value)

  /** Normalise one raw card, each field by its own fallback chain. */
  function NormaliseCard(c: RawCard): (r: FlashCard)
    ensures r.id == c.id && r.tinu_activation == c.tinu_activation
    ensures Truthy(c.title) ==> r.title == c.title
    ensures !Truthy(c.title) ==> r.title == c.heading
    ensures r.sub_heading == FirstTruthy([c.sub_heading, c.subHeading], "")
    ensures r.content == FirstTruthy([c.content, c.summary, c.answer], "")
    ensures r.image_url.None? <==> !Truthy(c.image_url)
    ensures r.image_url == Api.MakeImageUrl(c.image_url)
  {
    OrChain2(c.sub_heading, c.subHeading, "");
    OrChain3(c.content, c.summary, c.answer, "");
    FlashCard(
      id := c.id,
      title := Or(c.title, c.heading),
      sub_heading := OrElse(Or(c.sub_heading, c.subHeading), ""),
      content := OrElse(Or(Or(c.content, c.summary), c.answer), ""),
      image_url := Api.MakeImageUrl(c.image_url),
      tinu_activation := c.tinu_activation)
  }

  /** A card's `description` never reaches a flash card: cards that differ only there normalise alike. */
  lemma DescriptionIgnored(c: RawCard, description: Option<string>)
    ensures NormaliseCard(c.(description := description)) == NormaliseCard(c)
  {
  }

  /** The cards the screen shows for a response: `flash_cards` (or none) normalised one by one, in order. */
  function Normalise(res: P13nResponse): (cards: seq<FlashCard>)
    ensures res.flash_cards.None? ==> cards == []
    ensures res.flash_cards.Some? ==> |cards| == |res.flash_cards.value|
    ensures res.flash_cards.Some? ==>
              forall i :: 0 <= i < |cards| ==> cards[i] == NormaliseCard(res.flash_cards.value[i])
  {
    var raw := res.flash_cards.GetOr([]);
    seq(|raw|, i requires 0 <= i < |raw| => NormaliseCard(raw[i]))
  }

  /**
   * The screen's state: the `cards`, `loading` and `index` cells, the `mounted`
   * flag of its fetch effect, and whether the fetch is still in flight.
   */
  class FlashCardScreen {
    var cards: seq<FlashCard>
    var loading: bool
    var index: int
    var mounted: bool
    var pending: bool

    /** Cards arrive only together with the end of loading; while mounted, loading lasts as long as the fetch. */
    ghost predicate Valid()
      reads this
    {
      (loading ==> cards == []) && (mounted ==> loading == pending)
    }

    /** Mounting: empty list, loading, first card, fetch started. */
    constructor ()
      ensures Valid()
      ensures cards == [] && loading && index == 0 && mounted && pending
    {
      cards, loading, index := [], true, 0;
      mounted, pending := true, true;
    }

    /**
     * The tap zones (and the list) are rendered only once loading is over and
     * there is a card: never for an empty list, and never before the mount's
     * fetch has settled.
     */
    predicate TapZonesShown()
      reads this
      ensures TapZonesShown() ==> |cards| > 0
      ensures Valid() && TapZonesShown() ==> !(mounted && pending)
    {
      !loading && |cards| > 0
    }

    /** The fetch resolved: a still-mounted screen shows the normalised cards and stops loading. */
    method FetchResolved(res: P13nResponse)
      requires Valid() && pending
      modifies this`cards, this`loading, this`pending
      ensures Valid() && !pending
      ensures old(mounted) ==> cards == Normalise(res) && !loading
      ensures old(mounted) ==> (TapZonesShown() <==> res.flash_cards.GetOr([]) != [])
      ensures !old(mounted) ==> cards == old(cards) && loading == old(loading)
    {
      pending := false;
      if mounted {
        cards := Normalise(res);
        loading := false;
      }
    }

    /** The fetch failed: the list stays empty and a still-mounted screen stops loading. */
    method FetchRejected()
      requires Valid() && pending
      modifies this`loading, this`pending
      ensures Valid() && !pending
      ensures old(mounted) ==> cards == [] && !loading
      ensures old(mounted) ==> !TapZonesShown()
      ensures !old(mounted) ==> loading == old(loading)
    {
      pending := false;
      if mounted {
        loading := false;
      }
    }

    /** Unmounting clears the effect's `mounted` flag; later results are ignored. */
    method Unmount()
      requires Valid()
      modifies this`mounted
      ensures Valid() && !mounted
    {
      mounted := false;
    }

    /** A scroll came to rest on page `page`; the page is the current index. */
    method ScrollEnded(page: int)
      requires Valid()
      modifies this`index
      ensures Valid() && index == page
    {
      index := page;
    }

    /** Left tap zone: the card the list is asked to scroll to. */
    method TapPrev() returns (target: int)
      requires TapZonesShown()
      ensures target == Paging.Prev(index, |cards|)
      ensures 0 <= index < |cards| ==> 0 <= target < |cards| && Paging.Next(target, |cards|) == index
    {
      target := if index - 1 < 0 then |cards| - 1 else index - 1;
      if 0 <= index < |cards| {
        Paging.PrevNextInverse(index, |cards|);
      }
    }

    /** Right tap zone: the card the list is asked to scroll to. */
    method TapNext() returns (target: int)
      requires TapZonesShown()
      ensures target == Paging.Next(index, |cards|)
      ensures 0 <= index < |cards| ==> 0 <= target < |cards| && Paging.Prev(target, |cards|) == index
    {
      target := if index + 1 > |cards| - 1 then 0 else index + 1;
      if 0 <= index < |cards| {
        Paging.PrevNextInverse(index, |cards|);
      }
    }
  }
}
