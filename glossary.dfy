/**
 * The logic of the glossary routes of backend/app/routes/glossary.py, with the
 * request's values as parameters and the response as the result: the category
 * and search filters of `get_glossary`, the lookup by id of `get_term`, and the
 * input normalisation, base-definition lookup and rule-based explanation of
 * `explain_term`. The language model's answer is the parameter `ai`.
 */
module Glossary {
  import opened Wrappers
  import opened Text

  datatype Term = Term(id: int, term: string, definition: string, category: string)

  /** The glossary, in its fixed order. */
  const GlossaryTerms: seq<Term> := [
    Term(1, "Budget", "A plan that helps you track your income and expenses over a specific period.", "basics"),
    Term(2, "Stock", "A share of ownership in a company.", "investing"),
    Term(3, "ETF", "Exchange-Traded Fund - a basket of multiple stocks or bonds that you can buy as a single investment.", "investing"),
    Term(4, "Bond", "A loan you give to a company or government in exchange for regular interest payments.", "investing"),
    Term(5, "Risk", "The possibility of losing some or all of your investment.", "investing"),
    Term(6, "Diversification", "Spreading your investments across different types of assets to reduce risk.", "investing"),
    Term(7, "Compound Interest", "Interest earned on both your original money AND the interest already added.", "basics"),
    Term(8, "Emergency Fund", "Money set aside for unexpected expenses (3-6 months of living expenses recommended).", "basics"),
    Term(9, "50/30/20 Rule", "Budgeting guideline: 50% needs, 30% wants, 20% savings.", "basics"),
    Term(10, "Inflation", "The gradual increase in prices over time, reducing purchasing power.", "economics")
  ]

  // ------------------------------------------------------------ get_glossary

  /** `a` is `b` with some elements left out, the rest in their order. */
  predicate IsSubsequence(a: seq<Term>, b: seq<Term>) {
    if |a| == 0 then true
    else if |b| == 0 then false
    else if a[0] == b[0] then IsSubsequence(a[1..], b[1..])
    else IsSubsequence(a, b[1..])
  }

  /** The term's name or its definition, lower-cased, contains the lower-cased query. */
  predicate Matches(t: Term, query: string) {
    Contains(Lower(t.term), query) || Contains(Lower(t.definition), query)
  }

  /** `[t for t in terms if t['category'] == category]`. */
  function ByCategory(terms: seq<Term>, category: string): (kept: seq<Term>)
    ensures IsSubsequence(kept, terms)
    ensures forall k :: 0 <= k < |kept| ==> kept[k] in terms
    ensures forall k :: 0 <= k < |kept| ==> kept[k].category == category
    ensures forall t :: t in terms && t.category == category ==> t in kept
  {
    if |terms| == 0 then []
    else if terms[0].category == category then [terms[0]] + ByCategory(terms[1..], category)
    else
      var kept := ByCategory(terms[1..], category);
      SubsequenceDrop(kept, terms);
      kept
  }

  /** `[t for t in terms if query in t['term'].lower() or query in t['definition'].lower()]`. */
  function BySearch(terms: seq<Term>, query: string): (kept: seq<Term>)
    ensures IsSubsequence(kept, terms)
    ensures forall k :: 0 <= k < |kept| ==> kept[k] in terms
    ensures forall k :: 0 <= k < |kept| ==> Matches(kept[k], query)
    ensures forall t :: t in terms && Matches(t, query) ==> t in kept
  {
    if |terms| == 0 then []
    else if Matches(terms[0], query) then [terms[0]] + BySearch(terms[1..], query)
    else
      var kept := BySearch(terms[1..], query);
      SubsequenceDrop(kept, terms);
      kept
  }

  /** Leaving out the first element of `b` keeps `a` a subsequence of it. */
  lemma {:induction false} SubsequenceDrop(a: seq<Term>, b: seq<Term>)
    requires |b| > 0 && IsSubsequence(a, b[1..])
    ensures IsSubsequence(a, b)
    decreases |b|, 0
  {
    if |a| > 0 && a[0] == b[0] {
      SubsequenceTail(a, b[1..]);
    }
  }

  /** Dropping the first element of a subsequence keeps it a subsequence. */
  lemma {:induction false} SubsequenceTail(a: seq<Term>, b: seq<Term>)
    requires |a| > 0 && IsSubsequence(a, b)
    ensures IsSubsequence(a[1..], b)
    decreases |b|, 1
  {
    if a[0] == b[0] {
      SubsequenceDrop(a[1..], b);
    } else {
      SubsequenceTail(a, b[1..]);
      SubsequenceDrop(a[1..], b);
    }
  }

  /** A subsequence of a subsequence is a subsequence. */
  lemma {:induction false} SubsequenceTrans(a: seq<Term>, b: seq<Term>, c: seq<Term>)
    requires IsSubsequence(a, b) && IsSubsequence(b, c)
    ensures IsSubsequence(a, c)
    decreases |c|
  {
    if |a| > 0 && |c| > 0 {
      if b[0] == c[0] {
        if a[0] == b[0] {
          SubsequenceTrans(a[1..], b[1..], c[1..]);
        } else {
          SubsequenceTrans(a, b[1..], c[1..]);
          SubsequenceDrop(a, c);
        }
      } else {
        SubsequenceTrans(a, b, c[1..]);
        SubsequenceDrop(a, c);
      }
    }
  }

  /** The body of the glossary response: the terms and their count. */
  datatype Listing = Listing(terms: seq<Term>, count: nat)

  /**
   * `get_glossary` over `terms` (the glossary): an empty or absent category and
   * an empty search filter nothing; otherwise the category filter and then the
   * search filter on the lower-cased query. The count is the number of terms
   * returned.
   */
  function GetGlossary(terms: seq<Term>, category: Option<string>, search: string): (r: Listing)
    ensures r.count == |r.terms|
    ensures (category.None? || category.value == "") && search == "" ==> r.terms == terms
    ensures IsSubsequence(r.terms, terms)
    ensures category.Some? && category.value != "" ==>
      forall k :: 0 <= k < |r.terms| ==> r.terms[k].category == category.value
    ensures search != "" ==> forall k :: 0 <= k < |r.terms| ==> Matches(r.terms[k], Lower(search))
    ensures forall t ::
      (t in terms && (category.None? || category.value == "" || t.category == category.value) &&
       (search == "" || Matches(t, Lower(search)))) ==> t in r.terms
  {
    var query := Lower(search);
    var byCategory := if category.Some? && category.value != "" then ByCategory(terms, category.value)
                      else terms;
    var kept := if query != "" then BySearch(byCategory, query) else byCategory;
    SubsequenceRefl(terms);
    SubsequenceRefl(byCategory);
    SubsequenceTrans(kept, byCategory, terms);
    Listing(kept, |kept|)
  }

  lemma {:induction false} SubsequenceRefl(a: seq<Term>)
    ensures IsSubsequence(a, a)
    decreases |a|
  {
    if |a| > 0 {
      SubsequenceRefl(a[1..]);
    }
  }

  // ------------------------------------------------------------ get_term

  /** The first term in `terms` with the id, if any. */
  function FindId(terms: seq<Term>, id: int): (r: Option<Term>)
    ensures r.Some? ==> r.value in terms && r.value.id == id
    ensures r.Some? ==>
      exists k :: (0 <= k < |terms| && terms[k] == r.value && forall j :: 0 <= j < k ==> terms[j].id != id)
    ensures r.None? <==> forall k :: 0 <= k < |terms| ==> terms[k].id != id
  {
    if |terms| == 0 then None
    else if terms[0].id == id then
      assert terms[0] == terms[0];
      Some(terms[0])
    else
      var r := FindId(terms[1..], id);
      assert forall k :: 0 < k < |terms| ==> terms[k] == terms[1..][k - 1];
      r
  }

  /** An error response: the HTTP status, the error code and the message. */
  datatype ErrorBody = ErrorBody(status: int, error: string, message: string)

  /**
   * `get_term`: the first term with the id, or the not-found error naming the id
   * (rendered by `decimal`).
   */
  function GetTerm(id: int, decimal: int -> string): (r: Result<Term, ErrorBody>)
    ensures r.Ok? <==> exists k :: 0 <= k < |GlossaryTerms| && GlossaryTerms[k].id == id
    ensures r.Ok? ==> r.value in GlossaryTerms && r.value.id == id
    ensures r.Err? ==> r.error == ErrorBody(404, "Not found", "Term with ID " + decimal(id) + " not found")
  {
    match FindId(GlossaryTerms, id)
    case Some(t) => Ok(t)
    case None => Err(ErrorBody(404, "Not found", "Term with ID " + decimal(id) + " not found"))
  }

  /** The ids of the glossary are 1 to 10, in order, so `get_term` finds exactly those. */
  lemma GlossaryIds(id: int)
    ensures (exists k :: 0 <= k < |GlossaryTerms| && GlossaryTerms[k].id == id) <==> 1 <= id <= 10
    ensures 1 <= id <= 10 ==> GetTerm(id, x => "").Ok? && GetTerm(id, x => "").value == GlossaryTerms[id - 1]
  {
    assert forall k :: 0 <= k < |GlossaryTerms| ==> GlossaryTerms[k].id == k + 1;
    if 1 <= id <= 10 {
      assert GlossaryTerms[id - 1].id == id;
    }
  }

  // ------------------------------------------------------------ explain_term

  const Complexities: seq<string> := ["beginner", "intermediate", "advanced"]

  /** `(value or '').strip()`: an absent value reads as empty. */
  function Stripped(value: Option<string>): (s: string)
    ensures value.None? ==> s == ""
    ensures value.Some? ==> s == Trim(value.value)
  {
    match value
    case None => ""
    case Some(v) => Trim(v)
  }

  /** `(complexity or 'beginner').lower()`, replaced by "beginner" when not one of the three levels. */
  function Complexity(value: Option<string>): (level: string)
    ensures level in Complexities
    ensures value.Some? && value.value != "" && Lower(value.value) in Complexities ==> level == Lower(value.value)
    ensures (value.None? || value.value == "" || Lower(value.value) !in Complexities) ==> level == "beginner"
  {
    var lowered := Lower(if value.Some? && value.value != "" then value.value else "beginner");
    if lowered in Complexities then lowered else "beginner"
  }

  /** The definition of the first term whose name equals `name` case-insensitively, or "" when there is none. */
  function BaseDefinition(terms: seq<Term>, name: string): (d: string)
    ensures (forall k :: 0 <= k < |terms| ==> Lower(terms[k].term) != Lower(name)) ==> d == ""
    ensures (exists k :: 0 <= k < |terms| && Lower(terms[k].term) == Lower(name)) ==>
      exists k :: 0 <= k < |terms| && Lower(terms[k].term) == Lower(name) && d == terms[k].definition &&
        forall j :: 0 <= j < k ==> Lower(terms[j].term) != Lower(name)
  {
    if |terms| == 0 then ""
    else if Lower(terms[0].term) == Lower(name) then terms[0].definition
    else
      var d := BaseDefinition(terms[1..], name);
      assert forall k :: 0 < k < |terms| ==> terms[k] == terms[1..][k - 1];
      d
  }

  const GenericTail: string :=
    " is a financial term. At the moment we don't have a detailed definition stored, " +
    "but it usually refers to a concept used in investing or budgeting."

  /**
   * The rule-based explanation: the base definition when there is one, repeated
   * in the context of the user's question when one was asked; otherwise the
   * generic sentence.
   */
  function FallbackExplanation(term: string, base: string, customPrompt: string): (text: string)
    ensures base != "" ==> Contains(text, base) && StartsWith(text, "Here is a simple explanation of " + term + ":")
    ensures base != "" && customPrompt != "" ==> Contains(text, customPrompt) && EndsWith(text, base)
    ensures base == "" ==> text == term + GenericTail
  {
    if base != "" then
      var heading := "Here is a simple explanation of " + term + ":";
      var open := "In the context of your question (\U{201C}";
      var middle := "\U{201D}), think of " + term + " this way: ";
      var explanation := heading + "\n\n" + base + "\n\n";
      ExplanationParts(heading, "\n\n", base, "\n\n", open, customPrompt, middle);
      if customPrompt != "" then explanation + (open + customPrompt + middle + base)
      else explanation
    else term + GenericTail
  }

  /**
   * The explanation starts with its heading and contains the definition, with or
   * without the question's sentence; that sentence adds the question and ends
   * with the definition.
   */
  lemma ExplanationParts(heading: string, gap: string, base: string, end: string,
                         open: string, question: string, middle: string)
    ensures StartsWith(heading + gap + base + end, heading)
    ensures Contains(heading + gap + base + end, base)
    ensures StartsWith(heading + gap + base + end + (open + question + middle + base), heading)
    ensures Contains(heading + gap + base + end + (open + question + middle + base), base)
    ensures Contains(heading + gap + base + end + (open + question + middle + base), question)
    ensures EndsWith(heading + gap + base + end + (open + question + middle + base), base)
  {
    var explanation := heading + gap + base + end;
    var s := explanation + (open + question + middle + base);
    assert explanation[..|heading|] == heading;
    StartsWithAppend(explanation, heading, open + question + middle + base);
    ContainsConcat(heading + gap, base, end);
    ContainsLeft(explanation, open + question + middle + base, base);
    assert s == (explanation + open) + question + (middle + base);
    ContainsConcat(explanation + open, question, middle + base);
    assert s[|s| - |base|..] == base;
  }

  /** The request: the term, the complexity level and the optional question, each possibly absent. */
  datatype ExplainRequest = ExplainRequest(term: Option<string>, complexity: Option<string>, customPrompt: Option<string>)

  datatype Explanation = Explanation(term: string, complexity: string, explanation: string)

  const Unavailable := ErrorBody(503, "unavailable", "AI explanations are currently unavailable.")
  const InvalidRequest := ErrorBody(400, "invalid_request", "term is required")

  /**
   * `explain_term`: unavailable without the language model; an invalid request
   * when the term is empty after stripping; otherwise the model's answer
   * stripped, or the rule-based explanation when the model call fails (`ai` is
   * `None`).
   */
  function ExplainTerm(available: bool, req: ExplainRequest, ai: Option<string>): (r: Result<Explanation, ErrorBody>)
    ensures !available ==> r == Err(Unavailable)
    ensures available && Stripped(req.term) == "" ==> r == Err(InvalidRequest)
    ensures available && Stripped(req.term) != "" ==> r.Ok?
    ensures r.Ok? ==> r.value.term == Stripped(req.term) != "" && r.value.complexity in Complexities
    ensures r.Ok? ==> r.value.complexity == Complexity(req.complexity)
    ensures r.Ok? && ai.Some? ==> r.value.explanation == Trim(ai.value)
    ensures r.Ok? && ai.None? ==>
      var base := BaseDefinition(GlossaryTerms, r.value.term);
      r.value.explanation == FallbackExplanation(r.value.term, base, Stripped(req.customPrompt))
  {
    if !available then Err(Unavailable)
    else
      var term := Stripped(req.term);
      var complexity := Complexity(req.complexity);
      var customPrompt := Stripped(req.customPrompt);
      if term == "" then Err(InvalidRequest)
      else
        var base := BaseDefinition(GlossaryTerms, term);
        match ai
        case Some(text) => Ok(Explanation(term, complexity, Trim(text)))
        case None => Ok(Explanation(term, complexity, FallbackExplanation(term, base, customPrompt)))
  }

  /**
   * Without the model, a term of the glossary, in any case, is explained with its
   * definition; a term outside it gets the generic sentence.
   */
  lemma FallbackUsesGlossary(req: ExplainRequest, k: nat)
    requires Stripped(req.term) != "" && k < |GlossaryTerms|
    requires Lower(Stripped(req.term)) == Lower(GlossaryTerms[k].term)
    ensures var r := ExplainTerm(true, req, None);
      r.Ok? && exists j :: 0 <= j <= k && Contains(r.value.explanation, GlossaryTerms[j].definition)
  {
    DefinitionsNonEmpty();
    FallbackUsesBase(GlossaryTerms, Stripped(req.term), Stripped(req.customPrompt), k);
  }

  /** Every glossary term has a definition. */
  lemma DefinitionsNonEmpty()
    ensures forall i :: 0 <= i < |GlossaryTerms| ==> GlossaryTerms[i].definition != ""
  {
  }

  /**
   * When some term matches the name and every term has a definition, the
   * rule-based explanation contains the definition of a term no later than it.
   */
  lemma FallbackUsesBase(terms: seq<Term>, name: string, customPrompt: string, k: nat)
    requires k < |terms| && Lower(name) == Lower(terms[k].term)
    requires forall i :: 0 <= i < |terms| ==> terms[i].definition != ""
    ensures exists j ::
      (0 <= j <= k && Contains(FallbackExplanation(name, BaseDefinition(terms, name), customPrompt), terms[j].definition))
  {
    var base := BaseDefinition(terms, name);
    var j :| 0 <= j < |terms| && Lower(terms[j].term) == Lower(name) && base == terms[j].definition &&
      forall i :: 0 <= i < j ==> Lower(terms[i].term) != Lower(name);
    assert j <= k;
  }

  /** Without the model, a term outside the glossary gets the generic sentence. */
  lemma FallbackOutsideGlossary(req: ExplainRequest)
    requires Stripped(req.term) != ""
    requires forall k :: 0 <= k < |GlossaryTerms| ==> Lower(GlossaryTerms[k].term) != Lower(Stripped(req.term))
    ensures var r := ExplainTerm(true, req, None);
      r.Ok? && r.value.explanation == Stripped(req.term) + GenericTail
  {
  }
}
