/** The script endpoint: request validation, the style default, and the
    template that assembles a promotional script from three phrase tables.
    The three random table positions are parameters. */
module ScriptRoute {
  import opened Common

  /** A position drawn from one of the four-entry phrase tables. */
  type Pick = i: nat | i < 4

  const Hooks: seq<string> := [
    "Okay, I have to share this with you because",
    "You guys, I'm obsessed with this",
    "I wasn't expecting this, but",
    "Can we talk about this for a second?"
  ]

  const Transitions: seq<string> := [
    "Here's the thing -",
    "What I love about this is",
    "The best part?",
    "And honestly,"
  ]

  const Closings: seq<string> := [
    "You need to try this!",
    "Seriously, check this out!",
    "Trust me on this one!",
    "You won't regret it!"
  ]

  const AfterName := " literally changed everything for me. "
  const AfterDescription := " I've been using it for a while now and the results are incredible. "

  const DefaultStyle := "enthusiastic"
  const MissingFieldsMessage := "product_name and product_description are required"
  const FailureMessage := "Failed to generate script"

  /** Where the parts of a concatenation sit in it. */
  lemma ConcatOccurs(x: string, y: string)
    ensures OccursAt(x, x + y, 0) && OccursAt(y, x + y, |x|)
  {
    assert (x + y)[..|x|] == x;
    assert (x + y)[|x|..|x| + |y|] == y;
  }

  /** `whole` ends with `part`. */
  predicate EndsWith(part: string, whole: string)
  {
    |part| <= |whole| && whole[|whole| - |part|..] == part
  }

  /** An occurrence survives text added after it. */
  lemma OccursExtended(p: string, x: string, y: string, i: nat)
    requires OccursAt(p, x, i)
    ensures OccursAt(p, x + y, i)
  {
    assert (x + y)[i..i + |p|] == x[i..i + |p|];
  }

  /** The template literal of the script, over its parts and the two fixed
      sentences `afterName` and `afterDescription`. */
  function Fill(hook: string, productName: string, afterName: string, transition: string,
                description: string, afterDescription: string, closing: string): (script: string)
    ensures |script| == |hook| + 1 + |productName| + |afterName| + |transition| + 1 + |description| + |afterDescription| + |closing|
  {
    hook + " " + productName + afterName + transition + " " + description + afterDescription + closing
  }

  /** The hook opens the script. */
  lemma FillStartsWithHook(hook: string, productName: string, afterName: string, transition: string,
                           description: string, afterDescription: string, closing: string)
    ensures OccursAt(hook, Fill(hook, productName, afterName, transition, description, afterDescription, closing), 0)
  {
    var s := hook + " ";
    ConcatOccurs(hook, " ");
    OccursExtended(hook, s, productName, 0);
    s := s + productName;
    OccursExtended(hook, s, afterName, 0);
    s := s + afterName;
    OccursExtended(hook, s, transition, 0);
    s := s + transition;
    OccursExtended(hook, s, " ", 0);
    s := s + " ";
    OccursExtended(hook, s, description, 0);
    s := s + description;
    OccursExtended(hook, s, afterDescription, 0);
    s := s + afterDescription;
    OccursExtended(hook, s, closing, 0);
  }

  /** The product name follows the hook and a space. */
  lemma FillNamesProduct(hook: string, productName: string, afterName: string, transition: string,
                         description: string, afterDescription: string, closing: string)
    ensures OccursAt(productName, Fill(hook, productName, afterName, transition, description, afterDescription, closing), |hook| + 1)
  {
    var s := hook + " ";
    var i := |s|;
    ConcatOccurs(s, productName);
    s := s + productName;
    OccursExtended(productName, s, afterName, i);
    s := s + afterName;
    OccursExtended(productName, s, transition, i);
    s := s + transition;
    OccursExtended(productName, s, " ", i);
    s := s + " ";
    OccursExtended(productName, s, description, i);
    s := s + description;
    OccursExtended(productName, s, afterDescription, i);
    s := s + afterDescription;
    OccursExtended(productName, s, closing, i);
  }

  /** The transition follows the sentence after the name. */
  lemma FillPlacesTransition(hook: string, productName: string, afterName: string, transition: string,
                             description: string, afterDescription: string, closing: string)
    ensures OccursAt(transition, Fill(hook, productName, afterName, transition, description, afterDescription, closing),
                     |hook| + 1 + |productName| + |afterName|)
  {
    var s := hook + " " + productName + afterName;
    var i := |s|;
    ConcatOccurs(s, transition);
    s := s + transition;
    OccursExtended(transition, s, " ", i);
    s := s + " ";
    OccursExtended(transition, s, description, i);
    s := s + description;
    OccursExtended(transition, s, afterDescription, i);
    s := s + afterDescription;
    OccursExtended(transition, s, closing, i);
  }

  /** The description follows the transition and a space. */
  lemma FillDescribesProduct(hook: string, productName: string, afterName: string, transition: string,
                             description: string, afterDescription: string, closing: string)
    ensures OccursAt(description, Fill(hook, productName, afterName, transition, description, afterDescription, closing),
                     |hook| + 1 + |productName| + |afterName| + |transition| + 1)
  {
    var s := hook + " " + productName + afterName + transition + " ";
    var i := |s|;
    ConcatOccurs(s, description);
    s := s + description;
    OccursExtended(description, s, afterDescription, i);
    s := s + afterDescription;
    OccursExtended(description, s, closing, i);
  }

  /** The closing ends the script. */
  lemma FillEndsWithClosing(hook: string, productName: string, afterName: string, transition: string,
                            description: string, afterDescription: string, closing: string)
    ensures EndsWith(closing, Fill(hook, productName, afterName, transition, description, afterDescription, closing))
  {
    var s := hook + " " + productName + afterName + transition + " " + description + afterDescription;
    assert (s + closing)[|s|..] == closing;
  }

  /** `generateUGCScript`: hook, product name, transition, description and
      closing, in that order, joined by the fixed template text. `style` is
      accepted and not used. */
  function GenerateUGCScript(productName: string, description: string, style: Field, h: Pick, t: Pick, c: Pick): (script: string)
    ensures |script| > 0
    ensures OccursAt(Hooks[h], script, 0)
    ensures EndsWith(Closings[c], script)
    ensures Occurs(productName, script) && Occurs(description, script)
  {
    var hook, transition, closing := Hooks[h], Transitions[t], Closings[c];
    FillStartsWithHook(hook, productName, AfterName, transition, description, AfterDescription, closing);
    FillNamesProduct(hook, productName, AfterName, transition, description, AfterDescription, closing);
    FillDescribesProduct(hook, productName, AfterName, transition, description, AfterDescription, closing);
    FillEndsWithClosing(hook, productName, AfterName, transition, description, AfterDescription, closing);
    var script := Fill(hook, productName, AfterName, transition, description, AfterDescription, closing);
    assert OccursAt(productName, script, |hook| + 1);
    assert OccursAt(description, script, |hook| + 1 + |productName| + |AfterName| + |transition| + 1);
    script
  }

  /** The script is exactly the five parts in template order. */
  lemma ScriptShape(productName: string, description: string, style: Field, h: Pick, t: Pick, c: Pick)
    ensures GenerateUGCScript(productName, description, style, h, t, c)
         == Hooks[h] + " " + productName + AfterName + Transitions[t] + " " + description + AfterDescription + Closings[c]
  {
  }

  /** The style has no effect on the script. */
  lemma StyleIsIgnored(productName: string, description: string, s1: Field, s2: Field, h: Pick, t: Pick, c: Pick)
    ensures GenerateUGCScript(productName, description, s1, h, t, c) == GenerateUGCScript(productName, description, s2, h, t, c)
  {
  }

  lemma HooksDiffer(h1: Pick, h2: Pick)
    ensures |Hooks[h1]| > 0
    ensures Hooks[h1][0] == Hooks[h2][0] ==> h1 == h2
  {
  }

  lemma TransitionsDiffer(t1: Pick, t2: Pick)
    ensures |Transitions[t1]| > 0
    ensures Transitions[t1][0] == Transitions[t2][0] ==> t1 == t2
  {
  }

  lemma ClosingsDiffer(c1: Pick, c2: Pick)
    ensures Closings[c1] == Closings[c2] ==> c1 == c2
  {
  }

  /** Two filled templates that are equal start with the same character. */
  lemma SameFillSameFirstChar(hook1: string, transition1: string, closing1: string,
                              hook2: string, transition2: string, closing2: string,
                              productName: string, afterName: string, description: string, afterDescription: string)
    requires |hook1| > 0 && |hook2| > 0
    requires Fill(hook1, productName, afterName, transition1, description, afterDescription, closing1)
          == Fill(hook2, productName, afterName, transition2, description, afterDescription, closing2)
    ensures hook1[0] == hook2[0]
  {
    FillStartsWithHook(hook1, productName, afterName, transition1, description, afterDescription, closing1);
    FillStartsWithHook(hook2, productName, afterName, transition2, description, afterDescription, closing2);
  }

  /** With the same hook, equal filled templates have transitions that start alike. */
  lemma SameFillSameTransitionChar(hook: string, transition1: string, closing1: string, transition2: string, closing2: string,
                                   productName: string, afterName: string, description: string, afterDescription: string)
    requires |transition1| > 0 && |transition2| > 0
    requires Fill(hook, productName, afterName, transition1, description, afterDescription, closing1)
          == Fill(hook, productName, afterName, transition2, description, afterDescription, closing2)
    ensures transition1[0] == transition2[0]
  {
    FillPlacesTransition(hook, productName, afterName, transition1, description, afterDescription, closing1);
    FillPlacesTransition(hook, productName, afterName, transition2, description, afterDescription, closing2);
  }

  /** With the same hook and transition, equal filled templates have the same closing. */
  lemma SameFillSameClosing(hook: string, transition: string, closing1: string, closing2: string,
                            productName: string, afterName: string, description: string, afterDescription: string)
    requires Fill(hook, productName, afterName, transition, description, afterDescription, closing1)
          == Fill(hook, productName, afterName, transition, description, afterDescription, closing2)
    ensures closing1 == closing2
  {
    FillEndsWithClosing(hook, productName, afterName, transition, description, afterDescription, closing1);
    FillEndsWithClosing(hook, productName, afterName, transition, description, afterDescription, closing2);
  }

  /** For a given product, the 64 choices of phrases give 64 different
      scripts: the script tells which hook, transition and closing were drawn. */
  lemma {:induction false} ChoicesAreRecoverable(productName: string, description: string, style: Field,
                                                 h1: Pick, t1: Pick, c1: Pick, h2: Pick, t2: Pick, c2: Pick)
    requires GenerateUGCScript(productName, description, style, h1, t1, c1)
          == GenerateUGCScript(productName, description, style, h2, t2, c2)
    ensures h1 == h2 && t1 == t2 && c1 == c2
  {
    HooksDiffer(h1, h2);
    HooksDiffer(h2, h1);
    SameFillSameFirstChar(Hooks[h1], Transitions[t1], Closings[c1], Hooks[h2], Transitions[t2], Closings[c2],
                          productName, AfterName, description, AfterDescription);
    assert h1 == h2;
    TransitionsDiffer(t1, t2);
    TransitionsDiffer(t2, t1);
    SameFillSameTransitionChar(Hooks[h1], Transitions[t1], Closings[c1], Transitions[t2], Closings[c2],
                               productName, AfterName, description, AfterDescription);
    assert t1 == t2;
    SameFillSameClosing(Hooks[h1], Transitions[t1], Closings[c1], Closings[c2],
                        productName, AfterName, description, AfterDescription);
    ClosingsDiffer(c1, c2);
  }

  /** The JSON body of a script request. */
  datatype ScriptBody = ScriptBody(product_name: Field, product_description: Field, style: Field)

  /** The destructuring default: `style` falls back to "enthusiastic" only when it is absent. */
  function StyleOrDefault(style: Field): (s: Field)
    ensures style.Undefined? ==> s == Str(DefaultStyle)
    ensures !style.Undefined? ==> s == style
  {
    if style.Undefined? then Str(DefaultStyle) else style
  }

  /** `POST` of the script endpoint. `body` is `None` when the request body is
      not JSON or is `null`: reading it throws and the error is caught. Any
      other body that is not an object reads as all fields `Undefined`. */
  function HandlePost(body: Option<ScriptBody>, h: Pick, t: Pick, c: Pick): (r: RouteResponse<string>)
    ensures body.None? ==> r == ErrorJson(500, FailureMessage)
    ensures body.Some? && !(Truthy(body.value.product_name) && Truthy(body.value.product_description))
      ==> r == ErrorJson(400, MissingFieldsMessage)
    ensures r.Ok? <==> body.Some? && Truthy(body.value.product_name) && Truthy(body.value.product_description)
    ensures r.Ok? ==> r.value == GenerateUGCScript(body.value.product_name.value, body.value.product_description.value,
                                                   StyleOrDefault(body.value.style), h, t, c)
  {
    match body
    case None => ErrorJson(500, FailureMessage)
    case Some(b) =>
      if !Truthy(b.product_name) || !Truthy(b.product_description) then ErrorJson(400, MissingFieldsMessage)
      else Ok(GenerateUGCScript(b.product_name.value, b.product_description.value, StyleOrDefault(b.style), h, t, c))
  }

  /** A rejected request gets the same answer whatever phrases would have been
      drawn: the generator plays no part in it. */
  lemma RejectionIgnoresGenerator(body: Option<ScriptBody>, h1: Pick, t1: Pick, c1: Pick, h2: Pick, t2: Pick, c2: Pick)
    requires HandlePost(body, h1, t1, c1).ErrorJson?
    ensures HandlePost(body, h2, t2, c2) == HandlePost(body, h1, t1, c1)
  {
  }

  /** An accepted request's script names the product and carries its description. */
  lemma AcceptedScriptMentionsProduct(body: Option<ScriptBody>, h: Pick, t: Pick, c: Pick)
    requires HandlePost(body, h, t, c).Ok?
    ensures Occurs(body.value.product_name.value, HandlePost(body, h, t, c).value)
    ensures Occurs(body.value.product_description.value, HandlePost(body, h, t, c).value)
  {
  }
}
