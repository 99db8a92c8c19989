/** The text helpers used around the engine: truncation to a maximum length
    with a suffix, and normalisation of lab names to canonical ids. */
module Helpers {
  import opened Optional
  import opened Strings

  /** `truncate_text(text, max_length, suffix)`: the text itself when it fits,
      otherwise its prefix `text[:max_length - len(suffix)]` (a negative bound
      counting from the end, as in Python) followed by the suffix. */
  function TruncateText(text: string, maxLength: int, suffix: string): (r: string)
    ensures |text| <= maxLength ==> r == text
    ensures |text| > maxLength ==> |r| >= |suffix| && r[|r| - |suffix|..] == suffix
    ensures |text| > maxLength && maxLength >= |suffix| ==>
      |r| == maxLength && r == text[..maxLength - |suffix|] + suffix
    ensures |text| > maxLength && maxLength < |suffix| ==>
      r == text[..if |text| + maxLength - |suffix| >= 0 then |text| + maxLength - |suffix| else 0] + suffix
  {
    if |text| <= maxLength then text
    else
      var head := Prefix(text, maxLength - |suffix|);
      assert (head + suffix)[|head|..] == suffix;
      head + suffix
  }

  /** A truncated text never gets longer, as long as the suffix fits into the
      maximum length. */
  lemma TruncateBound(text: string, maxLength: int, suffix: string)
    requires |suffix| <= maxLength
    ensures |TruncateText(text, maxLength, suffix)| <= maxLength
    ensures |TruncateText(text, maxLength, suffix)| <= |text|
  {
  }

  /** The canonical lab ids the alias table maps to. */
  const CanonicalIds: set<string> :=
    {"anthropic", "openai", "deepmind", "meta", "microsoft", "amazon", "xai", "cohere", "nvidia", "magic", "naver", "g42"}

  /** `mappings.get(key)` on the alias table of `normalize_lab_name`. */
  function Alias(key: string): (r: Option<string>)
    ensures r.Some? ==> r.value in CanonicalIds
  {
    match key
    case "anthropic" => Some("anthropic")
    case "openai" => Some("openai")
    case "open ai" => Some("openai")
    case "deepmind" => Some("deepmind")
    case "google deepmind" => Some("deepmind")
    case "google" => Some("deepmind")
    case "meta" => Some("meta")
    case "facebook" => Some("meta")
    case "microsoft" => Some("microsoft")
    case "amazon" => Some("amazon")
    case "aws" => Some("amazon")
    case "xai" => Some("xai")
    case "x.ai" => Some("xai")
    case "cohere" => Some("cohere")
    case "nvidia" => Some("nvidia")
    case "magic" => Some("magic")
    case "naver" => Some("naver")
    case "g42" => Some("g42")
    case _ => None
  }

  /** The lookup key: lower-cased, stripped, with "-" and "_" read as spaces. */
  function NormalizedKey(name: string): string {
    ReplaceChar(ReplaceChar(Strip(Lower(name)), '-', ' '), '_', ' ')
  }

  /** `normalize_lab_name`: the canonical id of a known alias, otherwise the
      lookup key with spaces turned into underscores. */
  function NormalizeLabName(name: string): (r: string)
    ensures Alias(NormalizedKey(name)).Some? ==> r == Alias(NormalizedKey(name)).value
    ensures Alias(NormalizedKey(name)).None? ==> r == ReplaceChar(NormalizedKey(name), ' ', '_')
    ensures '-' !in r && ' ' !in r
  {
    var key := NormalizedKey(name);
    match Alias(key)
    case Some(id) => AliasTargets(key); id
    case None => ReplaceChar(key, ' ', '_')
  }

  /** Lower-case letters, digits and dots: what the alias targets are made of. */
  predicate PlainChar(c: char) {
    'a' <= c <= 'z' || '0' <= c <= '9' || c == '.'
  }

  predicate Plain(s: string) {
    forall i | 0 <= i < |s| :: PlainChar(s[i])
  }

  /** Every alias target is a plain id and is its own alias. */
  lemma AliasTargets(key: string)
    requires Alias(key).Some?
    ensures Plain(Alias(key).value) && Alias(Alias(key).value) == Alias(key)
  {
    CanonicalIdsPlain(Alias(key).value);
  }

  /** Each canonical id is plain and is its own alias. */
  lemma CanonicalIdsPlain(id: string)
    requires id in CanonicalIds
    ensures Plain(id) && Alias(id) == Some(id)
  {
  }

  lemma {:induction false} StripLeftKeeps(s: string)
    ensures forall c | c in StripLeft(s) :: c in s
    ensures StripLeft(s) == [] || !IsSpace(StripLeft(s)[0])
    ensures |StripLeft(s)| <= |s| && StripLeft(s) == s[|s| - |StripLeft(s)|..]
  {
    if s != [] && IsSpace(s[0]) {
      StripLeftKeeps(s[1..]);
    }
  }

  lemma {:induction false} StripRightKeeps(s: string)
    ensures forall c | c in StripRight(s) :: c in s
    ensures StripRight(s) == [] || !IsSpace(StripRight(s)[|StripRight(s)| - 1])
    ensures |StripRight(s)| <= |s| && StripRight(s) == s[..|StripRight(s)|]
  {
    if s != [] && IsSpace(s[|s| - 1]) {
      StripRightKeeps(s[..|s| - 1]);
    }
  }

  /** Every character of a stripped text comes from the input, and its ends
      are not white space. */
  lemma StripKeeps(s: string)
    ensures forall c | c in Strip(s) :: c in s
    ensures Strip(s) == [] || (!IsSpace(Strip(s)[0]) && !IsSpace(Strip(s)[|Strip(s)| - 1]))
  {
    var l := StripLeft(s);
    StripLeftKeeps(s);
    StripRightKeeps(l);
    var r := StripRight(l);
    if r != [] {
      assert r[0] == l[0];
    }
  }

  /** A text whose ends are not white space is left alone by `strip`. */
  lemma StripNoop(s: string)
    requires s == [] || (!IsSpace(s[0]) && !IsSpace(s[|s| - 1]))
    ensures Strip(s) == s
  {
  }

  /** The lookup key has no upper-case letter, no "-" and no "_", and does not
      start or end with white space other than a space made from "-" or "_". */
  lemma NormalizedKeyShape(name: string)
    ensures var k := NormalizedKey(name);
      && (forall c | c in k :: !IsUpperChar(c) && c != '-' && c != '_')
      && (k == [] || ((k[0] == ' ' || !IsSpace(k[0])) && (k[|k| - 1] == ' ' || !IsSpace(k[|k| - 1]))))
  {
    StripKeeps(Lower(name));
    forall c | c in Strip(Lower(name)) ensures !IsUpperChar(c) {
      assert c in Lower(name);
      var i :| 0 <= i < |name| && Lower(name)[i] == c;
    }
  }

  /** Normalising an id that `normalize_lab_name` produced changes nothing:
      every alias target is its own alias, and any other result maps back to
      the key it came from. */
  lemma NormalizeIdempotent(name: string)
    ensures NormalizeLabName(NormalizeLabName(name)) == NormalizeLabName(name)
  {
    var key := NormalizedKey(name);
    var r := NormalizeLabName(name);
    NormalizedKeyShape(name);
    match Alias(key)
    case Some(id) =>
      AliasTargets(key);
      PlainIsFixed(r);
    case None =>
      assert forall i | 0 <= i < |r| :: r[i] == (if key[i] == ' ' then '_' else key[i]);
      assert Lower(r) == r;
      StripNoop(r);
      assert NormalizedKey(r) == key;
  }

  /** A plain id is its own lookup key. */
  lemma PlainIsFixed(s: string)
    requires Plain(s)
    ensures NormalizedKey(s) == s
  {
    assert Lower(s) == s;
    StripNoop(s);
  }

  /** Case, "-" and "_" do not matter; aliases lead to canonical ids; other
      names keep their words joined by "_". */
  lemma NormalizeExamples()
    ensures NormalizeLabName("Open-AI") == "openai"
    ensures NormalizeLabName("Google_DeepMind") == "deepmind"
    ensures NormalizeLabName("AWS") == "amazon"
    ensures NormalizeLabName("Mistral-AI") == "mistral_ai"
  {
    OpenAiExample();
    DeepMindExample();
    AwsExample();
    MistralExample();
  }

  lemma OpenAiExample() ensures NormalizeLabName("Open-AI") == "openai" {
    KeyOf("Open-AI", "open-ai", "open ai");
  }

  lemma DeepMindExample() ensures NormalizeLabName("Google_DeepMind") == "deepmind" {
    KeyOf("Google_DeepMind", "google_deepmind", "google deepmind");
  }

  lemma AwsExample() ensures NormalizeLabName("AWS") == "amazon" {
    KeyOf("AWS", "aws", "aws");
  }

  lemma MistralExample() ensures NormalizeLabName("Mistral-AI") == "mistral_ai" {
    KeyOf("Mistral-AI", "mistral-ai", "mistral ai");
    assert ReplaceChar("mistral ai", ' ', '_') == "mistral_ai";
  }

  /** The lookup key of a name without surrounding white space. */
  lemma KeyOf(name: string, lower: string, key: string)
    requires Lower(name) == lower && lower != [] && !IsSpace(lower[0]) && !IsSpace(lower[|lower| - 1])
    requires ReplaceChar(ReplaceChar(lower, '-', ' '), '_', ' ') == key
    ensures NormalizedKey(name) == key
  {
    StripNoop(lower);
  }
}
