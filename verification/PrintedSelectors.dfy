/** Selectors written as text and read back (vendor/k8s.io/client-go/pkg/labels/selector.go), and what an identifier
    with commas or blanks in it selects. */
module PrintedSelectors {
  import opened Basics
  import opened Names
  import opened Selectors

  /** One requirement with at most one value. */
  datatype Term = Term(key: string, relation: Relation, value: string)

  predicate WithoutValue(t: Term) { t.relation.Exists? || t.relation.DoesNotExist? }

  /** The key is valid and no keyword, the value is a valid label value, and a number where it is compared. The
      relations of sets, `in` and `notin`, are left out. */
  predicate Proper(t: Term) {
    && PlainKey(t.key)
    && !t.relation.OneOf? && !t.relation.NoneOf?
    && (if WithoutValue(t) then t.value == "" else IsLabelValue(t.value))
    && (t.relation.Greater? || t.relation.Less? ==> ParseInt(t.value).Some?)
  }

  function RequirementOf(t: Term): Requirement {
    Requirement(t.key, t.relation, if WithoutValue(t) then {} else {t.value})
  }

  function Sign(relation: Relation): string {
    match relation
    case Equals => "="
    case DoubleEquals => "=="
    case NotEquals => "!="
    case Greater => ">"
    case Less => "<"
    case _ => ""
  }

  function Print(t: Term): string {
    if t.relation.DoesNotExist? then "!" + t.key else t.key + Sign(t.relation) + t.value
  }

  function PrintAll(terms: seq<Term>): string {
    if terms == [] then ""
    else if |terms| == 1 then Print(terms[0])
    else Print(terms[0]) + "," + PrintAll(terms[1..])
  }

  // ---- The tokens of a printed term ----

  function SignToken(relation: Relation): Token {
    match relation
    case DoubleEquals => DoubleEqualSign
    case NotEquals => NotEqualSign
    case Greater => Above
    case Less => Below
    case _ => EqualSign
  }

  function TermTokens(t: Term): seq<Token> {
    if t.relation.DoesNotExist? then [Bang, Word(t.key)]
    else if t.relation.Exists? then [Word(t.key)]
    else [Word(t.key), SignToken(t.relation)] + if t.value == "" then [] else [Keyword(t.value)]
  }

  /** What may follow a term: nothing, or a comma and more. */
  predicate Follows(rest: string) { rest == "" || rest[0] == ',' }

  lemma KeyTokens(key: string, rest: string)
    requires PlainKey(key) && (rest == "" || Special(rest[0]))
    ensures Tokens(key + rest) == [Word(key)] + Tokens(rest)
  {
    hide IsQualifiedName, Tokens;
    WordFirst(key, rest);
  }

  lemma ValueThenRest(value: string, rest: string)
    requires IsLabelValue(value) && Follows(rest)
    ensures Tokens(value + rest) == (if value == "" then [] else [Keyword(value)]) + Tokens(rest)
  {
    if value == "" {
      assert value + rest == rest;
      assert [] + Tokens(rest) == Tokens(rest);
    } else {
      NoSpecials(value);
      hide Tokens;
      assert forall c | c in value :: InWord(c);
      WordFirst(value, rest);
    }
  }

  lemma SymbolFirst(text: string)
    requires text != [] && Special(text[0])
    ensures Tokens(text) == [Operator(text).0] + Tokens(PastZero(text[Operator(text).1..]))
  {
    hide Operator;
    assert SkipBlanks(text) == text;
  }

  /** An operator of one character: no equality sign follows. */
  lemma OneSign(text: string)
    requires text != [] && Special(text[0]) && (|text| >= 2 ==> text[1] != '=')
    ensures Operator(text) == (match text[0]
                               case '=' => EqualSign
                               case '!' => Bang
                               case '(' => Open
                               case ')' => Closed
                               case ',' => Comma
                               case '>' => Above
                               case _ => Below, 1)
  {
    assert |text| >= 2 ==> text[..2][1] == text[1];
  }

  lemma SymbolThenRest(text: string, rest: string)
    requires text != [] && Special(text[0]) && text[Operator(text).1..] == rest
    requires rest == "" || rest[0] != '\0'
    ensures Tokens(text) == [Operator(text).0] + Tokens(rest)
  {
    hide Operator, Tokens;
    SymbolFirst(text);
  }

  lemma SignTokens(relation: Relation, rest: string)
    requires relation == Equals || relation == DoubleEquals || relation == NotEquals || relation == Greater
             || relation == Less
    requires rest == "" || (rest[0] != '=' && rest[0] != '\0')
    ensures Tokens(Sign(relation) + rest) == [SignToken(relation)] + Tokens(rest)
  {
    hide Tokens;
    var text := Sign(relation) + rest;
    if relation == DoubleEquals || relation == NotEquals {
      assert text[..2] == Sign(relation) && text[2..] == rest;
    } else {
      OneSign(text);
      assert text[1..] == rest;
    }
    SymbolThenRest(text, rest);
  }

  lemma {:induction false} ValueStarts(value: string, rest: string)
    requires IsLabelValue(value) && Follows(rest)
    ensures value + rest == "" || ((value + rest)[0] != '=' && (value + rest)[0] != '\0')
  {
    if value != "" {
      assert value[0] in value;
    }
  }

  lemma PrintedTokens(t: Term, rest: string)
    requires Proper(t) && Follows(rest)
    ensures Tokens(Print(t) + rest) == TermTokens(t) + Tokens(rest)
  {
    hide Tokens, PlainKey, IsLabelValue;
    if t.relation.DoesNotExist? {
      assert Print(t) + rest == "!" + (t.key + rest);
      BangTokens(t.key, rest);
      KeyTokens(t.key, rest);
    } else if t.relation.Exists? {
      assert Print(t) + rest == t.key + rest;
      KeyTokens(t.key, rest);
    } else {
      var values := if t.value == "" then [] else [Keyword(t.value)];
      assert Print(t) + rest == t.key + (Sign(t.relation) + (t.value + rest));
      KeyTokens(t.key, Sign(t.relation) + (t.value + rest));
      ValueStarts(t.value, rest);
      SignTokens(t.relation, t.value + rest);
      ValueThenRest(t.value, rest);
      assert TermTokens(t) + Tokens(rest) == [Word(t.key)] + ([SignToken(t.relation)] + (values + Tokens(rest)));
    }
  }

  lemma BangTokens(key: string, rest: string)
    requires PlainKey(key)
    ensures Tokens("!" + (key + rest)) == [Bang] + Tokens(key + rest)
  {
    hide Tokens, IsQualifiedName;
    var text := "!" + (key + rest);
    assert key[0] in key && text[1..] == key + rest && text[1] == key[0];
    OneSign(text);
    SymbolThenRest(text, key + rest);
  }

  lemma CommaTokens(rest: string)
    requires rest != "" && rest[0] != '\0' && rest[0] != '='
    ensures Tokens("," + rest) == [Comma] + Tokens(rest)
  {
    hide Tokens;
    var text := "," + rest;
    assert text[1..] == rest && text[1] == rest[0];
    OneSign(text);
    SymbolThenRest(text, rest);
  }

  // ---- The parse of a printed term ----

  /** The term's tokens parse to its requirement, and the parse stops behind them. */
  lemma TermParses(t: Term, rest: seq<Token>)
    requires Proper(t) && rest != [] && (rest[0].End? || rest[0].Comma?)
    ensures Starts(TermTokens(t) + rest)
    ensures ParseRequirement(TermTokens(t) + rest) == Some((RequirementOf(t), rest))
  {
    hide IsQualifiedName, IsLabelValue, ParseList, ParseInt;
    var tokens := TermTokens(t) + rest;
    if t.relation.DoesNotExist? {
      assert tokens[1..][1..] == rest;
    } else if t.relation.Exists? {
      assert tokens[1..] == rest;
    } else {
      var values := tokens[2..];
      assert Acceptable(RequirementOf(t));
      if t.value == "" {
        assert values == rest;
      } else {
        assert values == [Keyword(t.value)] + rest && values[1..] == rest;
      }
      assert ParseExact(values) == Some(({t.value}, rest));
    }
  }

  ghost predicate AllProper(terms: seq<Term>) {
    forall t | t in terms :: Proper(t)
  }

  function Requirements(terms: seq<Term>): Selector {
    seq(|terms|, i requires 0 <= i < |terms| => RequirementOf(terms[i]))
  }

  lemma PrintStarts(terms: seq<Term>)
    requires AllProper(terms) && terms != []
    ensures PrintAll(terms) != "" && PrintAll(terms)[0] != '\0' && PrintAll(terms)[0] != '='
  {
    hide IsQualifiedName, IsLabelValue, ParseInt;
    assert Proper(terms[0]);
    assert terms[0].key[0] in terms[0].key;
    assert PrintAll(terms)[0] == Print(terms[0])[0];
  }

  lemma PrintOne(t: Term)
    requires Proper(t)
    ensures Tokens(PrintAll([t])) == TermTokens(t) + [End]
  {
    hide Tokens, Proper, Print, TermTokens;
    assert Print(t) + "" == Print(t);
    PrintedTokens(t, "");
    NothingLeft();
  }

  lemma PrintMore(t: Term, more: seq<Term>)
    requires Proper(t) && AllProper(more) && more != []
    ensures Tokens(PrintAll([t] + more)) == TermTokens(t) + ([Comma] + Tokens(PrintAll(more)))
  {
    hide Tokens, Proper, Print, TermTokens;
    assert ([t] + more)[1..] == more;
    assert PrintAll([t] + more) == Print(t) + ("," + PrintAll(more));
    PrintStarts(more);
    PrintedTokens(t, "," + PrintAll(more));
    CommaTokens(PrintAll(more));
  }

  lemma LastParses(t: Term)
    requires Proper(t)
    ensures ParseTokens(TermTokens(t) + [End]) == Some([RequirementOf(t)])
  {
    hide ParseRequirement, Proper, TermTokens, RequirementOf;
    TermParses(t, [End]);
  }

  lemma MoreParse(t: Term, rest: seq<Token>)
    requires Proper(t) && Starts(rest) && ParseTokens(rest).Some?
    ensures ParseTokens(TermTokens(t) + ([Comma] + rest)) == Some([RequirementOf(t)] + ParseTokens(rest).value)
  {
    hide ParseRequirement, Proper, TermTokens, RequirementOf;
    TermParses(t, [Comma] + rest);
    assert ([Comma] + rest)[1..] == rest;
  }

  /** Proper terms printed one behind the other, with commas between them, parse to their requirements. */
  lemma {:induction false} PrintedParses(terms: seq<Term>)
    requires AllProper(terms)
    ensures Parse(PrintAll(terms)) == Some(Requirements(terms))
  {
    hide Tokens, TermTokens, ParseTokens, Proper, Print, RequirementOf, PrintAll;
    if terms == [] {
      NothingPrinted();
      assert Requirements(terms) == [];
    } else {
      var t, more := terms[0], terms[1..];
      assert terms == [t] + more && Requirements(terms) == [RequirementOf(t)] + Requirements(more);
      if more == [] {
        assert terms == [t] && Requirements(more) == [];
        assert Requirements(terms) == [RequirementOf(t)];
        PrintOne(t);
        LastParses(t);
      } else {
        PrintedParses(more);
        PrintMore(t, more);
        MoreStarts(more);
        MoreParse(t, Tokens(PrintAll(more)));
      }
    }
  }

  lemma NothingPrinted()
    ensures Parse(PrintAll([])) == Some([])
  {
    NothingLeft();
    hide Tokens;
  }

  lemma NothingLeft()
    ensures Tokens("") == [End]
  {
  }

  lemma MoreStarts(terms: seq<Term>)
    requires AllProper(terms) && terms != []
    ensures Starts(Tokens(PrintAll(terms)))
  {
    hide Tokens, Proper, Print;
    var t, more := terms[0], terms[1..];
    assert terms == [t] + more;
    if more == [] {
      assert terms == [t];
      PrintOne(t);
    } else {
      PrintMore(t, more);
    }
  }

  // ---- Identifiers with commas ----

  /** What a term asks of labels. */
  predicate Asks(t: Term, labels: map<string, string>) {
    match t.relation
    case Exists => t.key in labels
    case DoesNotExist => t.key !in labels
    case Equals | DoubleEquals | OneOf => t.key in labels && labels[t.key] == t.value
    case NotEquals | NoneOf => t.key !in labels || labels[t.key] != t.value
    case Greater => t.key in labels && ParseInt(labels[t.key]).Some? && ParseInt(t.value).Some?
                    && ParseInt(labels[t.key]).value > ParseInt(t.value).value
    case Less => t.key in labels && ParseInt(labels[t.key]).Some? && ParseInt(t.value).Some?
                 && ParseInt(labels[t.key]).value < ParseInt(t.value).value
  }

  lemma MeetsAsAsked(t: Term, labels: map<string, string>)
    requires Proper(t)
    ensures Meets(RequirementOf(t), labels) <==> Asks(t, labels)
  {
    hide ParseInt, PlainKey, IsLabelValue;
  }

  lemma MatchesAsAsked(terms: seq<Term>, labels: map<string, string>)
    requires AllProper(terms)
    ensures Matches(Requirements(terms), labels) <==> forall t | t in terms :: Asks(t, labels)
  {
    hide Asks, Meets, Proper, RequirementOf;
    forall t | t in terms ensures Meets(RequirementOf(t), labels) <==> Asks(t, labels) { MeetsAsAsked(t, labels); }
    var requirements := Requirements(terms);
    assert forall i | 0 <= i < |terms| :: requirements[i] == RequirementOf(terms[i]);
    if forall t | t in terms :: Asks(t, labels) {
      forall r | r in requirements ensures Meets(r, labels) {
        var i :| 0 <= i < |terms| && requirements[i] == r;
        assert terms[i] in terms;
      }
    } else {
      var t :| t in terms && !Asks(t, labels);
      var i :| 0 <= i < |terms| && terms[i] == t;
      assert requirements[i] in requirements;
    }
  }

  lemma CommaText(key: string, id: string, terms: seq<Term>)
    requires terms != []
    ensures PrintAll([Term(key, Equals, id)] + terms) == SelectorText(key, id + "," + PrintAll(terms))
  {
    hide PrintAll;
    PrintOfTwo(Term(key, Equals, id), terms);
    assert key + "=" + id + "," + PrintAll(terms) == key + "=" + (id + "," + PrintAll(terms));
  }

  lemma PrintOfTwo(t: Term, more: seq<Term>)
    requires more != []
    ensures PrintAll([t] + more) == Print(t) + "," + PrintAll(more)
  {
    hide Print;
    assert ([t] + more)[1..] == more;
  }

  /** An identifier made of a label value and further terms, set off by commas, selects what has that value and is as
      the terms ask besides. */
  lemma CommasAddTerms(key: string, id: string, terms: seq<Term>, labels: map<string, string>)
    requires PlainKey(key) && IsLabelValue(id) && AllProper(terms) && terms != []
    ensures Selected(key, id + "," + PrintAll(terms), labels)
       <==> (key in labels && labels[key] == id && forall t | t in terms :: Asks(t, labels))
  {
    hide PlainKey, IsLabelValue, PrintAll, SelectorText, Matches, Parse, ParseInt;
    var first := Term(key, Equals, id);
    assert Proper(first) && (Asks(first, labels) <==> key in labels && labels[key] == id);
    hide Proper, Asks;
    var all := [first] + terms;
    CommaText(key, id, terms);
    PrintedParses(all);
    MatchesAsAsked(all, labels);
    assert first in all && forall t | t in terms :: t in all;
  }

  // ---- Identifiers with blanks ----

  predicate AllBlank(text: string) { forall c | c in text :: Blank(c) }

  lemma {:induction false} BlanksBefore(blanks: string, text: string)
    requires AllBlank(blanks)
    ensures SkipBlanks(blanks + text) == SkipBlanks(text)
  {
    if blanks == [] {
      assert blanks + text == text;
    } else {
      assert blanks[0] in blanks && (blanks + text)[1..] == blanks[1..] + text;
      BlanksBefore(blanks[1..], text);
    }
  }

  lemma SameTokens(a: string, b: string)
    requires SkipBlanks(a) == SkipBlanks(b)
    ensures Tokens(a) == Tokens(b)
  {
    hide SkipBlanks, Operator, Keyword;
  }

  lemma OnlyBlanks(blanks: string)
    requires AllBlank(blanks)
    ensures Tokens(blanks) == [End]
  {
    hide Tokens;
    assert blanks + "" == blanks;
    BlanksBefore(blanks, "");
    SameTokens(blanks, "");
    NothingLeft();
  }

  lemma BlankValueTokens(before: string, id: string, behind: string)
    requires IsLabelValue(id) && AllBlank(before) && AllBlank(behind)
    ensures Tokens(before + (id + behind)) == ValueTokens(id)
  {
    BlanksBefore(before, id + behind);
    hide Tokens;
    SameTokens(before + (id + behind), id + behind);
    OnlyBlanks(behind);
    if id == [] {
      assert id + behind == behind;
    } else {
      NoSpecials(id);
      assert behind != [] ==> behind[0] in behind;
      WordFirst(id, behind);
    }
  }

  /** A label value with blanks around it is selected without them. */
  lemma BlanksAreSkipped(key: string, before: string, id: string, behind: string, labels: map<string, string>)
    requires PlainKey(key) && IsLabelValue(id) && AllBlank(before) && AllBlank(behind)
    ensures Selected(key, before + (id + behind), labels) <==> key in labels && labels[key] == id
  {
    hide PlainKey, IsLabelValue, Tokens, ParseTokens, Matches;
    var text := before + (id + behind);
    TextTokens(key, text);
    PlainStart(before, id, behind);
    SignTokens(Equals, text);
    BlankValueTokens(before, id, behind);
    assert [Word(key)] + ([EqualSign] + ValueTokens(id)) == [Word(key), EqualSign] + ValueTokens(id);
    ParseOfEquality(key, id);
    OneValue(Requirement(key, Equals, {id}), key, id);
  }

  lemma PlainStart(before: string, id: string, behind: string)
    requires IsLabelValue(id) && AllBlank(before) && AllBlank(behind)
    ensures var text := before + (id + behind); text == "" || (text[0] != '=' && text[0] != '\0')
  {
    var text := before + (id + behind);
    if before != "" {
      assert before[0] in before && text[0] == before[0];
    } else if id != "" {
      assert id[0] in id && text[0] == id[0];
    } else if behind != "" {
      assert behind[0] in behind && text[0] == behind[0];
    }
  }
}
