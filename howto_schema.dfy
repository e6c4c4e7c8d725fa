/** The schema.org HowTo structured data (JSON-LD) built for a blog post that
    carries a HowTo block: null unless the post has at least one step, and
    otherwise a fixed-shape object with defaults for every optional field. */
module HowToSchema {
  import opened Common
  import opened BlogPosts

  datatype MonetaryAmount = MonetaryAmount(typeName: string, currency: string, value: string)

  datatype HowToStepSchema = HowToStepSchema(typeName: string, url: string, name: string, text: string, image: string)

  /** The JSON-LD object; `context` and `typeName` are the `@context` and
      `@type` keys. */
  datatype HowTo = HowTo(
    context: string,
    typeName: string,
    name: string,
    description: string,
    totalTime: string,
    estimatedCost: MonetaryAmount,
    step: seq<HowToStepSchema>
  )

  const SchemaContext: string := "https://schema.org"
  const DefaultTotalTime: string := "PT20M"
  const DefaultCurrency: string := "USD"
  const DefaultCostValue: string := "0"
  const FallbackImagePath: string := "/logo-vertical.png"

  // ---------------------------------------------------------------------------
  // Decimal rendering of step numbers (the `${index + 1}` in the anchor)

  function DigitChar(d: nat): (c: char)
    requires d < 10
    ensures '0' <= c <= '9'
    ensures c as int - '0' as int == d
  {
    ('0' as int + d) as char
  }

  predicate AllDigits(s: string) {
    forall k :: 0 <= k < |s| ==> '0' <= s[k] <= '9'
  }

  /** The shortest decimal numeral for `n`. */
  function NatToDecimal(n: nat): (s: string)
    ensures |s| >= 1 && AllDigits(s)
    ensures s[0] == '0' ==> n == 0
    decreases n
  {
    if n < 10 then [DigitChar(n)] else NatToDecimal(n / 10) + [DigitChar(n % 10)]
  }

  /** The number a string of decimal digits denotes. */
  function DecimalValue(s: string): (v: nat)
    requires AllDigits(s)
    decreases |s|
  {
    if s == [] then 0
    else DecimalValue(s[..|s| - 1]) * 10 + (s[|s| - 1] as int - '0' as int)
  }

  lemma {:induction false} DecimalRoundTrip(n: nat)
    ensures DecimalValue(NatToDecimal(n)) == n
    decreases n
  {
    if n >= 10 {
      var s := NatToDecimal(n);
      DecimalRoundTrip(n / 10);
      assert s[..|s| - 1] == NatToDecimal(n / 10);
    }
  }

  /** Different step numbers render differently. */
  lemma NatToDecimalInjective(m: nat, n: nat)
    requires NatToDecimal(m) == NatToDecimal(n)
    ensures m == n
  {
    DecimalRoundTrip(m);
    DecimalRoundTrip(n);
  }

  // ---------------------------------------------------------------------------
  // The builder

  /** The post's page: the site's base url, `/blog/`, then the slug. */
  function PostUrl(post: BlogPost, baseUrl: string): (url: string)
    ensures |url| == |baseUrl| + 6 + |post.slug|
    ensures url[..|baseUrl|] == baseUrl
    ensures url[|baseUrl|..|baseUrl| + 6] == "/blog/"
    ensures url[|baseUrl| + 6..] == post.slug
  {
    baseUrl + "/blog/" + post.slug
  }

  /** The anchor a step without its own url links to (steps count from 1). */
  function StepAnchor(post: BlogPost, baseUrl: string, index: nat): string {
    PostUrl(post, baseUrl) + "#step-" + NatToDecimal(index + 1)
  }

  function BuildStep(post: BlogPost, baseUrl: string, step: HowToStep, index: nat): (s: HowToStepSchema)
    ensures s.typeName == "HowToStep" && s.name == step.name && s.text == step.text
    ensures s.url == OrDefault(step.url, StepAnchor(post, baseUrl, index))
    ensures s.image == OrDefault(step.image, OrDefault(post.featuredImage, baseUrl + FallbackImagePath))
  {
    HowToStepSchema(
      "HowToStep",
      OrDefault(step.url, StepAnchor(post, baseUrl, index)),
      step.name,
      step.text,
      OrDefault(step.image, OrDefault(post.featuredImage, baseUrl + FallbackImagePath)))
  }

  /** The indexed `map` over the steps, `from` being the index of `steps[0]`. */
  function BuildSteps(post: BlogPost, baseUrl: string, steps: seq<HowToStep>, from: nat): (r: seq<HowToStepSchema>)
    ensures |r| == |steps|
    ensures forall i :: 0 <= i < |steps| ==> r[i] == BuildStep(post, baseUrl, steps[i], from + i)
    decreases |steps|
  {
    if steps == [] then []
    else [BuildStep(post, baseUrl, steps[0], from)] + BuildSteps(post, baseUrl, steps[1..], from + 1)
  }

  function Cost(estimatedCost: Option<EstimatedCost>): (c: MonetaryAmount)
    ensures c.typeName == "MonetaryAmount"
    ensures estimatedCost.None? ==> c.currency == DefaultCurrency && c.value == DefaultCostValue
    ensures estimatedCost.Some? ==>
              && c.currency == (if estimatedCost.value.currency != "" then estimatedCost.value.currency else DefaultCurrency)
              && c.value == (if estimatedCost.value.value != "" then estimatedCost.value.value else DefaultCostValue)
  {
    match estimatedCost
    case None => MonetaryAmount("MonetaryAmount", DefaultCurrency, DefaultCostValue)
    case Some(cost) =>
      MonetaryAmount("MonetaryAmount", OrDefault(Some(cost.currency), DefaultCurrency), OrDefault(Some(cost.value), DefaultCostValue))
  }

  /** True when the builder has something to describe. */
  predicate HasSteps(post: BlogPost)
    // the negation of the source's null guard
    ensures !HasSteps(post) <==>
              (post.howTo.None? || post.howTo.value.steps.None? || |post.howTo.value.steps.value| == 0)
  {
    post.howTo.Some? && post.howTo.value.steps.Some? && |post.howTo.value.steps.value| > 0
  }

  function GenerateHowToSchema(post: BlogPost, baseUrl: string): (r: Option<HowTo>)
    // null exactly when there is no HowTo block, no step list or an empty one
    ensures r.None? <==> (post.howTo.None? || post.howTo.value.steps.None? || |post.howTo.value.steps.value| == 0)
    ensures r.Some? ==>
              && r.value.context == SchemaContext
              && r.value.typeName == "HowTo"
              && r.value.name == post.title
              && r.value.description == post.description
    ensures r.Some? ==>
              && (post.howTo.value.totalTime.Some? && post.howTo.value.totalTime.value != "" ==>
                    r.value.totalTime == post.howTo.value.totalTime.value)
              && (post.howTo.value.totalTime.None? || post.howTo.value.totalTime.value == "" ==>
                    r.value.totalTime == DefaultTotalTime)
    ensures r.Some? ==> r.value.estimatedCost == Cost(post.howTo.value.estimatedCost)
    // one output step per input step, in order
    ensures r.Some? ==>
              && |r.value.step| == |post.howTo.value.steps.value|
              && forall i :: 0 <= i < |r.value.step| ==>
                   r.value.step[i] == BuildStep(post, baseUrl, post.howTo.value.steps.value[i], i)
  {
    if !HasSteps(post) then None
    else
      var howTo := post.howTo.value;
      Some(HowTo(
        SchemaContext,
        "HowTo",
        post.title,
        post.description,
        OrDefault(howTo.totalTime, DefaultTotalTime),
        Cost(howTo.estimatedCost),
        BuildSteps(post, baseUrl, howTo.steps.value, 0)))
  }

  // ---------------------------------------------------------------------------
  // Lemmas

  /** Step `i` of the output: name and text copied from input step `i`, the
      url its own or the post-page anchor for step `i + 1`, the image its own,
      else the post's featured image, else the site logo. */
  lemma StepContents(post: BlogPost, baseUrl: string, i: nat)
    requires HasSteps(post) && i < |post.howTo.value.steps.value|
    ensures var r := GenerateHowToSchema(post, baseUrl);
            var step := post.howTo.value.steps.value[i];
            && r.Some? && i < |r.value.step|
            && r.value.step[i].typeName == "HowToStep"
            && r.value.step[i].name == step.name
            && r.value.step[i].text == step.text
            && (step.url.Some? && step.url.value != "" ==> r.value.step[i].url == step.url.value)
            && (step.url.None? || step.url.value == "" ==>
                  r.value.step[i].url == baseUrl + "/blog/" + post.slug + "#step-" + NatToDecimal(i + 1))
            && (step.image.Some? && step.image.value != "" ==> r.value.step[i].image == step.image.value)
            && (step.image.None? || step.image.value == "" ==>
                  if post.featuredImage.Some? && post.featuredImage.value != ""
                  then r.value.step[i].image == post.featuredImage.value
                  else r.value.step[i].image == baseUrl + "/logo-vertical.png")
  {
  }

  /** Steps that rely on the default anchor link to different places. */
  lemma DefaultAnchorsDistinct(post: BlogPost, baseUrl: string, i: nat, j: nat)
    requires HasSteps(post)
    requires i < j < |post.howTo.value.steps.value|
    requires OrDefault(post.howTo.value.steps.value[i].url, "") == ""
    requires OrDefault(post.howTo.value.steps.value[j].url, "") == ""
    ensures GenerateHowToSchema(post, baseUrl).value.step[i].url
            != GenerateHowToSchema(post, baseUrl).value.step[j].url
  {
    var r := GenerateHowToSchema(post, baseUrl);
    var prefix := PostUrl(post, baseUrl) + "#step-";
    assert r.value.step[i].url == prefix + NatToDecimal(i + 1);
    assert r.value.step[j].url == prefix + NatToDecimal(j + 1);
    if r.value.step[i].url == r.value.step[j].url {
      assert NatToDecimal(i + 1) == (prefix + NatToDecimal(i + 1))[|prefix|..];
      assert NatToDecimal(j + 1) == (prefix + NatToDecimal(j + 1))[|prefix|..];
      NatToDecimalInjective(i + 1, j + 1);
    }
  }

  /** A post whose HowTo block gives only steps gets the documented defaults. */
  lemma MinimalHowToDefaults(post: BlogPost, baseUrl: string)
    requires HasSteps(post)
    requires post.howTo.value.totalTime.None? && post.howTo.value.estimatedCost.None?
    ensures var r := GenerateHowToSchema(post, baseUrl);
            && r.Some?
            && r.value.totalTime == "PT20M"
            && r.value.estimatedCost == MonetaryAmount("MonetaryAmount", "USD", "0")
  {
  }

  /** An empty cost block is defaulted field by field, like a missing one. */
  lemma EmptyCostDefaults(post: BlogPost, baseUrl: string)
    requires HasSteps(post)
    requires post.howTo.value.estimatedCost == Some(EstimatedCost("", ""))
    ensures GenerateHowToSchema(post, baseUrl).value.estimatedCost == MonetaryAmount("MonetaryAmount", "USD", "0")
  {
  }

  /** The first step of `steps` numbered from 1: "…/blog/budgeting#step-1". */
  lemma ExampleFirstAnchor(post: BlogPost)
    requires post.slug == "budgeting"
    ensures StepAnchor(post, "https://example.com", 0) == "https://example.com/blog/budgeting#step-1"
  {
    assert NatToDecimal(1) == "1";
  }

  /** The twelfth step renders a two-digit number. */
  lemma ExampleTwelfthAnchor(post: BlogPost)
    requires post.slug == "budgeting"
    ensures StepAnchor(post, "https://example.com", 11) == "https://example.com/blog/budgeting#step-12"
  {
    assert NatToDecimal(12) == NatToDecimal(1) + [DigitChar(2)];
    assert NatToDecimal(12) == "12";
  }
}
