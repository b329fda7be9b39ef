/** Label selectors as text: the validators, lexer, parser and matching of the client library
    (vendor/k8s.io/client-go/pkg/labels/selector.go, pkg/util/validation/validation.go), and which selectors
    the text `key=id` stands for. */
module Selectors {
  import opened Basics
  import opened Names

  // ---- Validators ----

  predicate Lower(c: char) { 'a' <= c <= 'z' || '0' <= c <= '9' }

  predicate Alphanumeric(c: char) { Lower(c) || 'A' <= c <= 'Z' }

  predicate NameChar(c: char) { Alphanumeric(c) || c == '-' || c == '_' || c == '.' }

  predicate IsName(v: string) {
    v != [] && Alphanumeric(v[0]) && Alphanumeric(v[|v| - 1]) && forall c | c in v :: NameChar(c)
  }

  predicate IsLabelValue(v: string) { |v| <= 63 && (v == [] || IsName(v)) }

  predicate IsDnsLabel(v: string) {
    v != [] && Lower(v[0]) && Lower(v[|v| - 1]) && forall c | c in v :: Lower(c) || c == '-'
  }

  function Split(text: string, separator: char): (parts: seq<string>)
    ensures parts != []
  {
    if text == [] then [[]]
    else
      var rest := Split(text[1..], separator);
      if text[0] == separator then [[]] + rest else [[text[0]] + rest[0]] + rest[1..]
  }

  predicate IsSubdomain(v: string) {
    |v| <= 253 && forall part | part in Split(v, '.') :: IsDnsLabel(part)
  }

  predicate IsQualifiedName(v: string) {
    var parts := Split(v, '/');
    var name := parts[|parts| - 1];
    (|parts| == 1 || (|parts| == 2 && IsSubdomain(parts[0]))) && |name| <= 63 && IsName(name)
  }

  // ---- The lexer ----

  datatype Token =
    | End | Closed | Comma | Bang | DoubleEqualSign | EqualSign | Above | In | Below | NotEqualSign | NotIn | Open
    | Word(text: string)

  predicate Blank(c: char) { c == ' ' || c == '\t' || c == '\r' || c == '\n' }

  predicate Special(c: char) { c in "=!(),><" }

  function SkipBlanks(text: string): (rest: string)
    ensures |rest| <= |text|
    ensures rest != [] ==> !Blank(rest[0])
  {
    if text != [] && Blank(text[0]) then SkipBlanks(text[1..]) else text
  }

  predicate InWord(c: char) { c != '\0' && !Special(c) && !Blank(c) }

  function WordLength(text: string): (n: nat)
    ensures n <= |text|
    ensures text != [] && InWord(text[0]) ==> n > 0
  {
    if text == [] || !InWord(text[0]) then 0 else 1 + WordLength(text[1..])
  }

  /** A scan that meets a zero byte takes it for the end of the text, and has read past it. */
  function PastZero(text: string): (rest: string)
    ensures |rest| <= |text|
  {
    if text != [] && text[0] == '\0' then text[1..] else text
  }

  function Keyword(word: string): Token {
    if word == "in" then In else if word == "notin" then NotIn else Word(word)
  }

  /** The longest operator the text begins with. */
  function Operator(text: string): (token: (Token, nat))
    requires text != [] && Special(text[0])
    ensures 1 <= token.1 <= |text|
  {
    if |text| >= 2 && text[..2] == "==" then (DoubleEqualSign, 2)
    else if |text| >= 2 && text[..2] == "!=" then (NotEqualSign, 2)
    else (match text[0]
          case '=' => EqualSign
          case '!' => Bang
          case '(' => Open
          case ')' => Closed
          case ',' => Comma
          case '>' => Above
          case _ => Below, 1)
  }

  function Tokens(text: string): seq<Token>
    decreases |text|
  {
    var t := SkipBlanks(text);
    if t == [] || t[0] == '\0' then [End]
    else if Special(t[0]) then [Operator(t).0] + Tokens(PastZero(t[Operator(t).1..]))
    else [Keyword(t[..WordLength(t)])] + Tokens(PastZero(t[WordLength(t)..]))
  }

  // ---- The parser ----

  datatype Relation = Exists | DoesNotExist | Equals | DoubleEquals | NotEquals | OneOf | NoneOf | Greater | Less

  datatype Requirement = Requirement(key: string, relation: Relation, values: set<string>)

  type Selector = seq<Requirement>

  /** Where a value may stand, the words `in` and `notin` are values. */
  function AsValue(t: Token): Token {
    match t
    case In => Word("in")
    case NotIn => Word("notin")
    case _ => t
  }

  function RelationOf(t: Token): Option<Relation> {
    match t
    case In => Some(OneOf)
    case NotIn => Some(NoneOf)
    case EqualSign => Some(Equals)
    case DoubleEqualSign => Some(DoubleEquals)
    case NotEqualSign => Some(NotEquals)
    case Above => Some(Greater)
    case Below => Some(Less)
    case _ => None
  }

  function Digits(v: string): int
    decreases |v|
  {
    if v == [] then 0
    else
      var last := v[|v| - 1];
      10 * Digits(v[..|v| - 1]) + if '0' <= last <= '9' then last as int - '0' as int else 0
  }

  /** A decimal number of 64 bits. */
  function ParseInt(v: string): Option<int> {
    var signed := v != [] && (v[0] == '-' || v[0] == '+');
    var digits := if signed then v[1..] else v;
    if digits == [] || exists c | c in digits :: !('0' <= c <= '9') then None
    else
      var n := if signed && v[0] == '-' then -Digits(digits) else Digits(digits);
      if -0x8000_0000_0000_0000 <= n < 0x8000_0000_0000_0000 then Some(n) else None
  }

  predicate Acceptable(r: Requirement) {
    && (r.relation.Greater? || r.relation.Less? ==> forall v | v in r.values :: ParseInt(v).Some?)
    && forall v | v in r.values :: IsLabelValue(v)
  }

  /** What a parse found, and the tokens after it. */
  type Found<T> = Option<(T, seq<Token>)>

  function ParseExact(tokens: seq<Token>): (found: Found<set<string>>)
    requires tokens != []
    ensures found.Some? ==> |found.value.1| <= |tokens|
  {
    if tokens[0].End? || tokens[0].Comma? then Some(({""}, tokens))
    else if AsValue(tokens[0]).Word? then Some(({AsValue(tokens[0]).text}, tokens[1..]))
    else None
  }

  /** A list in parentheses from its first token on, given the values so far; ends before the `)`. */
  function ParseList(tokens: seq<Token>, values: set<string>): (found: Found<set<string>>)
    ensures found.Some? ==> |found.value.1| <= |tokens|
    decreases |tokens|
  {
    if |tokens| < 2 then None
    else
      match AsValue(tokens[0])
      case Word(text) =>
        if tokens[1].Comma? then ParseList(tokens[1..], values + {text})
        else if tokens[1].Closed? then Some((values + {text}, tokens[1..]))
        else None
      case Comma =>
        var more := if values == {} then {""} else values;
        if tokens[1].Closed? then Some((more + {""}, tokens[1..]))
        else if tokens[1].Comma? then ParseList(tokens[2..], more + {""})
        else ParseList(tokens[1..], more)
      case _ => None
  }

  function ParseValues(tokens: seq<Token>): (found: Found<set<string>>)
    ensures found.Some? ==> |found.value.1| <= |tokens|
  {
    if |tokens| < 2 || !tokens[0].Open? then None
    else
      match AsValue(tokens[1])
      case Closed => Some(({""}, tokens[2..]))
      case Word(_) | Comma =>
        var list := ParseList(tokens[1..], {});
        if list.None? || list.value.1 == [] || !list.value.1[0].Closed? then None
        else Some((list.value.0, list.value.1[1..]))
      case _ => None
  }

  function ParseRequirement(tokens: seq<Token>): (found: Found<Requirement>)
    ensures found.Some? ==> |found.value.1| < |tokens|
  {
    var negated := tokens != [] && tokens[0].Bang?;
    var t := if negated then tokens[1..] else tokens;
    if |t| < 2 || !AsValue(t[0]).Word? || !IsQualifiedName(AsValue(t[0]).text) then None
    else
      var key := AsValue(t[0]).text;
      if negated then Some((Requirement(key, DoesNotExist, {}), t[1..]))
      else if t[1].End? || t[1].Comma? then Some((Requirement(key, Exists, {}), t[1..]))
      else
        var relation := RelationOf(t[1]);
        if relation.None? || |t| < 3 then None
        else
          var values := if t[1].In? || t[1].NotIn? then ParseValues(t[2..]) else ParseExact(t[2..]);
          if values.None? || !Acceptable(Requirement(key, relation.value, values.value.0)) then None
          else Some((Requirement(key, relation.value, values.value.0), values.value.1))
  }

  predicate Starts(tokens: seq<Token>) {
    tokens != [] && (AsValue(tokens[0]).Word? || tokens[0].Bang?)
  }

  function ParseTokens(tokens: seq<Token>): Option<Selector>
    decreases |tokens|
  {
    if tokens != [] && tokens[0].End? then Some([])
    else if !Starts(tokens) then None
    else
      var found := ParseRequirement(tokens);
      if found.None? || found.value.1 == [] then None
      else
        var (requirement, rest) := found.value;
        match rest[0]
        case End => Some([requirement])
        case Comma =>
          var others := if Starts(rest[1..]) then ParseTokens(rest[1..]) else None;
          if others.None? then None else Some([requirement] + others.value)
        case _ => None
  }

  function Parse(text: string): Option<Selector> { ParseTokens(Tokens(text)) }

  // ---- Matching ----

  predicate Meets(r: Requirement, labels: map<string, string>) {
    match r.relation
    case Exists => r.key in labels
    case DoesNotExist => r.key !in labels
    case Equals | DoubleEquals | OneOf => r.key in labels && labels[r.key] in r.values
    case NotEquals | NoneOf => r.key in labels ==> labels[r.key] !in r.values
    case Greater => r.key in labels && Compares(r, labels[r.key], (a, b) => a > b)
    case Less => r.key in labels && Compares(r, labels[r.key], (a, b) => a < b)
  }

  /** The number in a label against that of the requirement. */
  predicate Compares(r: Requirement, number: string, holds: (int, int) -> bool) {
    && |r.values| == 1
    && ParseInt(number).Some?
    && forall v | v in r.values :: ParseInt(v).Some? && holds(ParseInt(number).value, ParseInt(v).value)
  }

  predicate Matches(selector: Selector, labels: map<string, string>) {
    forall r | r in selector :: Meets(r, labels)
  }

  // ---- The text `key=id` ----

  function SelectorText(key: string, id: string): string { key + "=" + id }

  function SelectorFor(key: string, id: string): Option<Selector> { Parse(SelectorText(key, id)) }

  /** What the text selects; a text that does not parse selects nothing. */
  predicate Selected(key: string, id: string, labels: map<string, string>) {
    SelectorFor(key, id).Some? && Matches(SelectorFor(key, id).value, labels)
  }

  /** A key that stands for itself: valid, and no keyword. */
  predicate PlainKey(key: string) {
    IsQualifiedName(key) && key != "in" && key != "notin" && key != [] && forall c | c in key :: InWord(c)
  }

  lemma {:induction false} WordEnds(word: string, rest: string)
    requires forall c | c in word :: InWord(c)
    requires rest != [] ==> !InWord(rest[0])
    ensures WordLength(word + rest) == |word|
  {
    if word == [] {
      assert word + rest == rest;
    } else {
      assert (word + rest)[1..] == word[1..] + rest && (word + rest)[0] in word;
      WordEnds(word[1..], rest);
    }
  }

  lemma WordFirst(word: string, rest: string)
    requires word != [] && (forall c | c in word :: InWord(c)) && (rest != [] ==> !InWord(rest[0]))
    ensures Tokens(word + rest) == [Keyword(word)] + Tokens(PastZero(rest))
  {
    var text := word + rest;
    WordEnds(word, rest);
    assert text[0] == word[0] && word[0] in word;
    assert SkipBlanks(text) == text;
    assert text[..|word|] == word && text[|word|..] == rest;
  }

  /** After the key there is an equality sign, and a second one if the identifier begins with it. */
  lemma SignNext(id: string)
    ensures Tokens("=" + id) == if id != [] && id[0] == '=' then [DoubleEqualSign] + Tokens(PastZero(id[1..]))
                                else [EqualSign] + Tokens(PastZero(id))
  {
    var text := "=" + id;
    assert SkipBlanks(text) == text;
    assert text[1..] == id;
    if id != [] && id[0] == '=' {
      assert text[..2] == "==" && text[2..] == id[1..];
    } else if id != [] {
      assert text[..2][1] == id[0];
    }
  }

  lemma ValueIsOneToken(id: string)
    requires IsLabelValue(id)
    ensures PastZero(id) == id
    ensures Tokens(id) == if id == [] then [End] else [Keyword(id), End]
  {
    if id != [] {
      assert forall c | c in id :: NameChar(c);
      assert id[0] in id;
      assert id + [] == id;
      WordFirst(id, []);
    }
  }

  lemma TextTokens(key: string, id: string)
    requires PlainKey(key)
    ensures Tokens(SelectorText(key, id)) == [Word(key)] + Tokens("=" + id)
  {
    assert SelectorText(key, id) == key + ("=" + id);
    WordFirst(key, "=" + id);
  }

  /** The tokens of one value: none for the empty one. */
  function ValueTokens(id: string): seq<Token> { if id == [] then [End] else [Keyword(id), End] }

  lemma ParseOfEquality(key: string, id: string)
    requires PlainKey(key) && IsLabelValue(id)
    ensures ParseTokens([Word(key), EqualSign] + ValueTokens(id)) == Some([Requirement(key, Equals, {id})])
  {
    hide IsQualifiedName, IsLabelValue, ParseList;
    var tokens, rest := [Word(key), EqualSign] + ValueTokens(id), ValueTokens(id);
    assert tokens[2..] == rest;
    assert ParseExact(rest) == Some(({id}, [End]));
    assert Acceptable(Requirement(key, Equals, {id}));
    assert ParseRequirement(tokens) == Some((Requirement(key, Equals, {id}), [End]));
  }

  lemma ValidParses(key: string, id: string)
    requires PlainKey(key) && IsLabelValue(id)
    ensures SelectorFor(key, id) == Some([Requirement(key, Equals, {id})])
  {
    hide IsQualifiedName, Tokens, ParseTokens;
    NoSpecials(id);
    TextTokens(key, id);
    SignNext(id);
    ValueIsOneToken(id);
    assert id != [] ==> id[0] in id;
    assert Tokens(SelectorText(key, id)) == [Word(key), EqualSign] + ValueTokens(id);
    ParseOfEquality(key, id);
  }

  lemma NoSpecials(id: string)
    requires IsLabelValue(id)
    ensures forall c | c in id :: InWord(c)
  {
    assert forall c | c in id :: NameChar(c);
  }

  /** A text that parses asks first for one valid value of the key. */
  lemma FirstRequirement(key: string, id: string) returns (v: string)
    requires PlainKey(key) && SelectorFor(key, id).Some?
    ensures IsLabelValue(v)
    ensures var selector := SelectorFor(key, id).value;
            && selector != []
            && (selector[0] == Requirement(key, Equals, {v}) || selector[0] == Requirement(key, DoubleEquals, {v}))
  {
    hide IsQualifiedName, IsLabelValue, Tokens;
    var tokens := Tokens(SelectorText(key, id));
    TextTokens(key, id);
    SignNext(id);
    assert tokens[0] == Word(key) && (tokens[1] == EqualSign || tokens[1] == DoubleEqualSign);
    var values := ParseExact(tokens[2..]).value.0;
    v :| values == {v};
  }

  lemma OneValue(r: Requirement, key: string, id: string)
    requires r == Requirement(key, Equals, {id}) || r == Requirement(key, DoubleEquals, {id})
    ensures forall labels :: Matches([r], labels) <==> key in labels && labels[key] == id
  {
    assert r in [r];
  }

  /** The text `key=id` selects by equality with the identifier exactly when the identifier is a valid label value. */
  lemma SelectsByEqualityExactly(key: string, id: string)
    requires PlainKey(key)
    ensures (forall labels :: Selected(key, id, labels) <==> key in labels && labels[key] == id) <==> IsLabelValue(id)
  {
    hide IsLabelValue, PlainKey, SelectorFor;
    if IsLabelValue(id) {
      ValidParses(key, id);
      OneValue(Requirement(key, Equals, {id}), key, id);
    } else if SelectorFor(key, id).Some? {
      var v := FirstRequirement(key, id);
      assert !Meets(SelectorFor(key, id).value[0], map[key := id]);
      assert !Selected(key, id, map[key := id]);
    } else {
      assert !Selected(key, id, map[key := id]);
    }
  }

  /** What the text selects for an identifier that is no valid label value is labelled for some other one. */
  lemma InvalidReachesOthers(key: string, id: string, labels: map<string, string>)
    requires PlainKey(key) && !IsLabelValue(id) && Selected(key, id, labels)
    ensures key in labels && labels[key] != id && IsLabelValue(labels[key])
  {
    hide IsLabelValue, PlainKey, SelectorFor;
    var v := FirstRequirement(key, id);
    assert Meets(SelectorFor(key, id).value[0], labels);
  }

  /** An identifier behind a second equality sign is selected in place of the whole. */
  lemma SignIsSwallowed(key: string, id: string)
    requires PlainKey(key) && IsLabelValue(id)
    ensures !IsLabelValue("=" + id)
    ensures forall labels :: Selected(key, "=" + id, labels) <==> key in labels && labels[key] == id
  {
    hide IsQualifiedName, Tokens, ParseTokens, Matches;
    var signed := "=" + id;
    NoSpecials(id);
    TextTokens(key, signed);
    SignNext(signed);
    assert signed[1..] == id;
    ValueIsOneToken(id);
    assert Tokens(SelectorText(key, signed)) == [Word(key), DoubleEqualSign] + ValueTokens(id);
    ParseOfDoubleEquality(key, id);
    OneValue(Requirement(key, DoubleEquals, {id}), key, id);
    assert !Alphanumeric(signed[0]);
  }

  lemma ParseOfDoubleEquality(key: string, id: string)
    requires PlainKey(key) && IsLabelValue(id)
    ensures ParseTokens([Word(key), DoubleEqualSign] + ValueTokens(id)) == Some([Requirement(key, DoubleEquals, {id})])
  {
    hide IsQualifiedName, IsLabelValue, ParseList;
    var tokens, rest := [Word(key), DoubleEqualSign] + ValueTokens(id), ValueTokens(id);
    assert tokens[2..] == rest;
    assert ParseExact(rest) == Some(({id}, [End]));
    assert Acceptable(Requirement(key, DoubleEquals, {id}));
    assert ParseRequirement(tokens) == Some((Requirement(key, DoubleEquals, {id}), [End]));
  }

  // ---- The keys of the program ----

  lemma SplitOnce(front: string, separator: char, back: string)
    requires separator !in front
    ensures Split(front + [separator] + back, separator) == [front] + Split(back, separator)
  {
    SplitConcat(front, separator, back);
    SplitNowhere(front, separator);
  }

  lemma {:induction false} SplitNowhere(text: string, separator: char)
    requires separator !in text
    ensures Split(text, separator) == [text]
  {
    if text != [] {
      SplitNowhere(text[1..], separator);
      assert [text[0]] + text[1..] == text;
    }
  }

  lemma PrefixParts()
    ensures Split("bosh.cloudfoundry.org", '.') == ["bosh", "cloudfoundry", "org"]
  {
    hide Split;
    SplitOnce("bosh", '.', "cloudfoundry.org");
    SplitOnce("cloudfoundry", '.', "org");
    SplitNowhere("org", '.');
    assert "bosh.cloudfoundry.org" == "bosh" + ['.'] + "cloudfoundry.org";
    assert "cloudfoundry.org" == "cloudfoundry" + ['.'] + "org";
  }

  lemma PrefixIsSubdomain()
    ensures IsSubdomain("bosh.cloudfoundry.org")
  {
    hide Split;
    PrefixParts();
    assert IsDnsLabel("bosh") && IsDnsLabel("cloudfoundry") && IsDnsLabel("org");
  }

  lemma OwnKeyParts(name: string)
    ensures Split(LabelKey(name), '/') == ["bosh.cloudfoundry.org"] + Split(name, '/')
    ensures '/' !in name ==> Split(name, '/') == [name]
    ensures '/' in name ==> |Split(name, '/')| >= 2
  {
    hide Split;
    assert PREFIX == "bosh.cloudfoundry.org" + ['/'];
    assert LabelKey(name) == "bosh.cloudfoundry.org" + ['/'] + name;
    SplitOnce("bosh.cloudfoundry.org", '/', name);
    if '/' in name {
      SplitTwice(name, '/');
    } else {
      SplitNowhere(name, '/');
    }
  }

  /** A key with the program's prefix is valid exactly when the rest of it is a valid name, and then it is plain. */
  lemma OwnKeys(name: string)
    ensures IsQualifiedName(LabelKey(name)) <==> IsName(name) && |name| <= 63
    ensures IsQualifiedName(LabelKey(name)) ==> PlainKey(LabelKey(name))
  {
    hide Split, IsSubdomain;
    var key := LabelKey(name);
    PrefixIsSubdomain();
    OwnKeyParts(name);
    if IsName(name) {
      assert forall c | c in name :: InWord(c);
      forall c | c in key ensures InWord(c) { assert c in PREFIX || c in name; }
      assert |key| > 5;
    }
  }

  lemma IdentifyingKeys()
    ensures PlainKey(AGENT_LABEL) && PlainKey(DISK_LABEL)
  {
    hide PlainKey, IsQualifiedName;
    OwnKeys("agent-id");
    OwnKeys("disk-id");
    assert LabelKey("agent-id") == AGENT_LABEL && LabelKey("disk-id") == DISK_LABEL;
  }

  lemma {:induction false} SplitTwice(text: string, separator: char)
    requires separator in text
    ensures |Split(text, separator)| >= 2
  {
    if text[0] != separator {
      assert [text[0]] + text[1..] == text;
      SplitTwice(text[1..], separator);
    }
  }

  lemma {:induction false} SplitConcat(a: string, separator: char, b: string)
    ensures Split(a + [separator] + b, separator) == Split(a, separator) + Split(b, separator)
  {
    var text := a + [separator] + b;
    if a == [] {
      assert text[1..] == b;
    } else {
      assert text[1..] == a[1..] + [separator] + b && text[0] == a[0];
      SplitConcat(a[1..], separator, b);
      var parts, rest := Split(a[1..], separator), Split(b, separator);
      assert (parts + rest)[0] == parts[0] && (parts + rest)[1..] == parts[1..] + rest;
      if a[0] == separator {
        assert [[]] + (parts + rest) == [[]] + parts + rest;
      } else {
        assert [[a[0]] + parts[0]] + (parts[1..] + rest) == [[a[0]] + parts[0]] + parts[1..] + rest;
      }
    }
  }

  /** A qualified name is a name of at most 63 characters, alone or behind one slash and a subdomain. */
  lemma QualifiedNameMeans(prefix: string, name: string)
    requires '/' !in name
    ensures IsQualifiedName(name) <==> IsName(name) && |name| <= 63
    ensures IsQualifiedName(prefix + "/" + name) <==>
              '/' !in prefix && IsSubdomain(prefix) && IsName(name) && |name| <= 63
  {
    hide Split, IsSubdomain, IsName;
    SplitNowhere(name, '/');
    SplitConcat(prefix, '/', name);
    assert prefix + "/" + name == prefix + ['/'] + name;
    if '/' in prefix {
      SplitTwice(prefix, '/');
    } else {
      SplitNowhere(prefix, '/');
    }
  }
}
