/**
 * The pure part of the content API client: turning an image path from the
 * API into a URL, and building the request body of the Tinu activation call.
 * Posting the request is network I/O and is not part of this model.
 */
module Api {
  import opened Js

  /** Origin the API and its images are served from: an https URL. */
  const Base: string := "https://" + "genai-images-4ea9c0ca90c8.herokuapp.com"

  /** A path that already names its scheme is used as it is. */
  predicate IsHttpUrl(s: string) {
    StartsWith(s, "http://") || StartsWith(s, "https://")
  }

  /**
   * `makeImageUrl(path)`: `null` (here `None`) for a missing or empty path,
   * an http(s) URL unchanged, anything else joined onto `Base`.
   */
  function MakeImageUrl(path: Option<string>): (r: Option<string>)
    ensures r.None? <==> !Truthy(path)
    ensures r.Some? ==> IsHttpUrl(r.value) && EndsWith(r.value, path.value)
    ensures Truthy(path) && IsHttpUrl(path.value) ==> r == path
    ensures Truthy(path) && !IsHttpUrl(path.value) ==>
              StartsWith(r.value, Base) && |r.value| == |Base| + |path.value|
  {
    if !Truthy(path) then None
    else if IsHttpUrl(path.value) then path
    else
      var url := Base + path.value;
      assert url[..|Base|] == Base && url[|url| - |path.value|..] == path.value;
      assert url[..8] == Base[..8] == "https://";
      Some(url)
  }

  /** Applying `MakeImageUrl` to its own result changes nothing. */
  lemma MakeImageUrlIdempotent(path: Option<string>)
    ensures MakeImageUrl(MakeImageUrl(path)) == MakeImageUrl(path)
  {
  }

  /** The four keys of the activation body and the value each takes when the caller leaves it out. */
  const ActivateDefaults: map<string, string> :=
    map["child_id" := "EXAMPLECHILD", "context" := "flash_card",
        "module_id" := "1", "topic" := "nutrition_impacts_mood"]

  /**
   * The argument gives key `k` a value. A destructuring default applies only
   * to `undefined`, so a key mapped to `Undefined` counts as not given while
   * `null` or `""` count as given. `None` is a call without an argument.
   */
  predicate Supplies(args: Option<map<string, Value>>, k: string) {
    args.Some? && k in args.value && args.value[k] != Undefined
  }

  /** The body `activateTinu(args)` posts: exactly the four keys, each given or defaulted. */
  function ActivateTinuBody(args: Option<map<string, Value>>): (body: map<string, Value>)
    ensures body.Keys == {"child_id", "context", "module_id", "topic"}
  {
    map k | k in ActivateDefaults :: if Supplies(args, k) then args.value[k] else Str(ActivateDefaults[k])
  }

  /** Every key the caller gives is posted as given; every other key takes its default. */
  lemma ActivateTinuBodyFields(args: Option<map<string, Value>>, k: string)
    requires k in ActivateDefaults
    ensures Supplies(args, k) ==> ActivateTinuBody(args)[k] == args.value[k]
    ensures !Supplies(args, k) ==> ActivateTinuBody(args)[k] == Str(ActivateDefaults[k])
    ensures ActivateTinuBody(args)[k] != Undefined
  {
  }

  /** Calling without an argument, or with `{}`, posts the four defaults. */
  lemma ActivateTinuBodyWithoutArgument()
    ensures ActivateTinuBody(None) == ActivateTinuBody(Some(map[]))
    ensures ActivateTinuBody(None) ==
              map["child_id" := Str("EXAMPLECHILD"), "context" := Str("flash_card"),
                  "module_id" := Str("1"), "topic" := Str("nutrition_impacts_mood")]
  {
  }

  /** Keys other than the four are dropped: arguments that agree on the four keys post the same body. */
  lemma ActivateTinuBodyIgnoresOtherKeys(a: Option<map<string, Value>>, b: Option<map<string, Value>>)
    requires forall k :: k in ActivateDefaults ==> Supplies(a, k) == Supplies(b, k)
    requires forall k :: k in ActivateDefaults && Supplies(a, k) && Supplies(b, k) ==> a.value[k] == b.value[k]
    ensures ActivateTinuBody(a) == ActivateTinuBody(b)
  {
  }

  /** Passing a posted body back in posts the same body again. */
  lemma ActivateTinuBodyIdempotent(args: Option<map<string, Value>>)
    ensures ActivateTinuBody(Some(ActivateTinuBody(args))) == ActivateTinuBody(args)
  {
  }
}
