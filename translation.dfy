/**
 * The translation hook `useTranslation(namespace)` and the function `t` it
 * returns: a dotted key is resolved through the nested locale tables of the
 * current language, with a per-namespace fallback to English and a final
 * fallback to the literal `namespace.key`, and every `{{name}}` placeholder
 * whose name is an option key is replaced by that option's value.
 */
module Translation {
  import opened Wrappers

  const English := "en"

  /** A node of a locale table as loaded from its JSON file: `undefined`, a string, or a nested object. */
  datatype Node = Absent | Leaf(text: string) | Branch(children: map<string, Node>)

  /** JavaScript truthiness of a node: `undefined` and `""` are falsy, every object is truthy. */
  predicate Truthy(n: Node) {
    match n
    case Absent => false
    case Leaf(text) => text != ""
    case Branch(_) => true
  }

  /** One step of the fold `acc && acc[part]`: a falsy accumulator is passed on unchanged. */
  function Step(acc: Node, part: string): (r: Node)
    ensures !Truthy(acc) ==> r == acc
  {
    match acc
    case Absent => Absent
    case Leaf(text) => if text == "" then acc else Absent
    case Branch(children) => if part in children then children[part] else Absent
  }

  // ---------------------------------------------------------------- splitting

  /** `s.split(sep)` for a one-character separator: the pieces between separators, at least one. */
  function Split(s: string, sep: char): (parts: seq<string>)
    ensures |parts| >= 1
    ensures forall i :: 0 <= i < |parts| ==> sep !in parts[i]
  {
    if s == [] then [[]]
    else
      var rest := Split(s[1..], sep);
      if s[0] == sep then [[]] + rest
      else [[s[0]] + rest[0]] + rest[1..]
  }

  /** `parts.join(sep)`. */
  function Join(parts: seq<string>, sep: char): string
    requires |parts| >= 1
  {
    if |parts| == 1 then parts[0] else parts[0] + [sep] + Join(parts[1..], sep)
  }

  /** Joining the pieces of a split gives the original string back. */
  lemma {:induction false} JoinSplit(s: string, sep: char)
    ensures Join(Split(s, sep), sep) == s
  {
    if s != [] {
      var rest := Split(s[1..], sep);
      JoinSplit(s[1..], sep);
      if s[0] == sep {
        assert Split(s, sep)[1..] == rest;
      } else if |rest| > 1 {
        var parts := Split(s, sep);
        assert parts[1..] == rest[1..];
        assert Join(rest, sep) == rest[0] + [sep] + Join(rest[1..], sep);
        assert s == [s[0]] + s[1..];
      }
    }
  }

  /** A string without the separator splits into itself alone. */
  lemma {:induction false} SplitWithoutSeparator(s: string, sep: char)
    requires sep !in s
    ensures Split(s, sep) == [s]
  {
    if s != [] {
      SplitWithoutSeparator(s[1..], sep);
      assert s == [s[0]] + s[1..];
    }
  }

  /** Splitting `head + sep + tail`, where `head` holds no separator, yields `head` followed by the pieces of `tail`. */
  lemma {:induction false} SplitFirstSegment(head: string, sep: char, tail: string)
    requires sep !in head
    ensures Split(head + [sep] + tail, sep) == [head] + Split(tail, sep)
  {
    var s := head + [sep] + tail;
    if head == [] {
      assert s[1..] == tail;
    } else {
      assert s[1..] == head[1..] + [sep] + tail;
      SplitFirstSegment(head[1..], sep, tail);
      assert [head[0]] + head[1..] == head;
    }
  }

  /** Splitting the join of separator-free pieces gives the pieces back. */
  lemma {:induction false} SplitJoin(parts: seq<string>, sep: char)
    requires |parts| >= 1
    requires forall i :: 0 <= i < |parts| ==> sep !in parts[i]
    ensures Split(Join(parts, sep), sep) == parts
  {
    if |parts| == 1 {
      SplitWithoutSeparator(parts[0], sep);
    } else {
      SplitJoin(parts[1..], sep);
      SplitFirstSegment(parts[0], sep, Join(parts[1..], sep));
    }
  }

  // ---------------------------------------------------------------- nested lookup

  /** The fold of `Step` over path segments, left to right. */
  function Descend(n: Node, parts: seq<string>): Node
    decreases parts
  {
    if parts == [] then n else Descend(Step(n, parts[0]), parts[1..])
  }

  /** `getNestedValue(obj, path)`: split the path on `.` and descend one level per segment. */
  function NestedValue(n: Node, path: string): Node {
    Descend(n, Split(path, '.'))
  }

  /** Descending along `p + q` is descending along `p`, then along `q`. */
  lemma {:induction false} DescendAppend(n: Node, p: seq<string>, q: seq<string>)
    ensures Descend(n, p + q) == Descend(Descend(n, p), q)
    decreases p
  {
    if p != [] {
      assert (p + q)[1..] == p[1..] + q;
      DescendAppend(Step(n, p[0]), p[1..], q);
    } else {
      assert p + q == q;
    }
  }

  /** A falsy value is never descended into: it is the result of every later step. */
  lemma {:induction false} DescendFalsy(n: Node, parts: seq<string>)
    requires !Truthy(n)
    ensures Descend(n, parts) == n
    decreases parts
  {
    if parts != [] {
      DescendFalsy(Step(n, parts[0]), parts[1..]);
    }
  }

  /** A segment missing anywhere on the path makes the whole lookup `undefined`. */
  lemma MissingSegmentAbsorbs(n: Node, parts: seq<string>, i: nat)
    requires i <= |parts|
    requires Descend(n, parts[..i]) == Absent
    ensures Descend(n, parts) == Absent
  {
    assert parts == parts[..i] + parts[i..];
    DescendAppend(n, parts[..i], parts[i..]);
    DescendFalsy(Absent, parts[i..]);
  }

  /** A key without `.` is a single direct lookup. */
  lemma NestedValueOfPlainKey(n: Node, key: string)
    requires '.' !in key
    ensures NestedValue(n, key) == Step(n, key)
  {
    SplitWithoutSeparator(key, '.');
    assert Descend(n, [key]) == Descend(Step(n, key), []);
  }

  /** A dotted key descends one level for its first segment and resolves the rest below it. */
  lemma NestedValueDescends(n: Node, head: string, rest: string)
    requires '.' !in head
    ensures NestedValue(n, head + "." + rest) == NestedValue(Step(n, head), rest)
  {
    SplitFirstSegment(head, '.', rest);
  }

  // ---------------------------------------------------------------- namespaces

  /** All locale tables: language code to namespace to node. */
  type Catalog = map<string, map<string, Node>>

  /** `table[name]`, which is `undefined` when the property is missing. */
  function Entry(table: map<string, Node>, name: string): Node {
    if name in table then table[name] else Absent
  }

  /** `translations[language][namespace] || translations['en'][namespace]`. */
  function NamespaceTable(catalog: Catalog, language: string, namespace: string): Node
    requires language in catalog && English in catalog
  {
    var own := Entry(catalog[language], namespace);
    if Truthy(own) then own else Entry(catalog[English], namespace)
  }

  /** The language is one of the catalog's and the key does not lead to a nested table. */
  predicate Resolvable(catalog: Catalog, language: string, namespace: string, key: string) {
    && language in catalog && English in catalog
    && !NestedValue(NamespaceTable(catalog, language, namespace), key).Branch?
  }

  /** The fallback text for a key that does not resolve. */
  function QualifiedKey(namespace: string, key: string): string {
    namespace + "." + key
  }

  /** `getNestedValue(translationNamespace, key) || `${namespace}.${key}``: never empty. */
  function Lookup(catalog: Catalog, language: string, namespace: string, key: string): (r: string)
    requires Resolvable(catalog, language, namespace, key)
    ensures r != ""
  {
    var found := NestedValue(NamespaceTable(catalog, language, namespace), key);
    if Truthy(found) then found.text else QualifiedKey(namespace, key)
  }

  /** English is consulted only when the current language lacks the whole namespace. */
  lemma EnglishOnlyForMissingNamespace(catalog: Catalog, language: string, namespace: string)
    requires language in catalog && English in catalog
    ensures Truthy(Entry(catalog[language], namespace)) ==>
              NamespaceTable(catalog, language, namespace) == catalog[language][namespace]
    ensures !Truthy(Entry(catalog[language], namespace)) ==>
              NamespaceTable(catalog, language, namespace) == Entry(catalog[English], namespace)
  {
  }

  /**
   * The fallback is per namespace, not per key: when the language has the
   * namespace but not the key, the result is `namespace.key` even if English
   * has a text for it.
   */
  lemma FallbackIsPerNamespace(catalog: Catalog, language: string, namespace: string, key: string)
    requires Resolvable(catalog, language, namespace, key)
    requires namespace in catalog[language] && Truthy(catalog[language][namespace])
    requires !Truthy(NestedValue(catalog[language][namespace], key))
    ensures Lookup(catalog, language, namespace, key) == QualifiedKey(namespace, key)
  {
  }

  /** An unresolved key, or one whose text is empty, yields exactly `namespace.key`. */
  lemma UnresolvedYieldsQualifiedKey(catalog: Catalog, language: string, namespace: string, key: string)
    requires Resolvable(catalog, language, namespace, key)
    ensures var found := NestedValue(NamespaceTable(catalog, language, namespace), key);
            (found == Absent || found == Leaf("")) <==>
              Lookup(catalog, language, namespace, key) == QualifiedKey(namespace, key)
                && !(found.Leaf? && found.text == QualifiedKey(namespace, key))
  {
  }

  // ---------------------------------------------------------------- substitution

  /** An option of `t`: a key of the `options` object and `String(options[key])`. */
  datatype Param = Param(name: string, value: string)

  /** The regular-expression syntax characters of JavaScript. */
  const RegexSyntax: set<char> := {'\\', '^', '$', '.', '|', '?', '*', '+', '(', ')', '[', ']', '{', '}'}

  /**
   * An option key that `new RegExp(`{{${k}}}`, 'g')` matches literally: no
   * syntax character, and not made only of digits and commas (some such keys
   * make `{k}` a repetition count, and the integer-like ones also come first in
   * `Object.keys`; the whole class is excluded).
   */
  predicate PlainKey(name: string) {
    && (forall i :: 0 <= i < |name| ==> name[i] !in RegexSyntax)
    && exists i :: 0 <= i < |name| && !('0' <= name[i] <= '9' || name[i] == ',')
  }

  /** Options the model describes: plain keys, and values without `$` substitution patterns. */
  predicate SupportedOptions(params: seq<Param>) {
    forall i :: 0 <= i < |params| ==> PlainKey(params[i].name) && '$' !in params[i].value
  }

  /** The placeholder text `{{name}}`. */
  function Placeholder(name: string): (p: string)
    ensures |p| == |name| + 4 && p[0] == '{' && p[1] == '{'
    ensures p[2..|p| - 2] == name && p[|p| - 2..] == "}}"
  {
    "{{" + name + "}}"
  }

  /** `pat` occurs in `s` at index `i`. */
  predicate MatchAt(s: string, i: nat, pat: string) {
    i + |pat| <= |s| && s[i..i + |pat|] == pat
  }

  /** `s.replace(/pat/g, rep)` for a literal pattern: leftmost, non-overlapping occurrences, one pass. */
  function ReplaceAll(s: string, pat: string, rep: string): string
    requires pat != []
    decreases |s|
  {
    if |s| < |pat| then s
    else if s[..|pat|] == pat then rep + ReplaceAll(s[|pat|..], pat, rep)
    else [s[0]] + ReplaceAll(s[1..], pat, rep)
  }

  /** The loop over `Object.keys(options)`: one global replacement per key, in key order. */
  function Interpolate(s: string, params: seq<Param>): string
    decreases params
  {
    if params == [] then s
    else Interpolate(ReplaceAll(s, Placeholder(params[0].name), params[0].value), params[1..])
  }

  /** The value of `t(key, options)`. */
  function Translated(catalog: Catalog, language: string, namespace: string, key: string,
                       options: Option<seq<Param>>): string
    requires Resolvable(catalog, language, namespace, key)
  {
    var text := Lookup(catalog, language, namespace, key);
    match options
    case None => text
    case Some(params) => Interpolate(text, params)
  }

  /** `t(key, options)` as the hook runs it: look up, then rewrite `translation` once per option key. */
  method Translate(catalog: Catalog, language: string, namespace: string, key: string,
                   options: Option<seq<Param>>) returns (translation: string)
    requires Resolvable(catalog, language, namespace, key)
    requires options.Some? ==> SupportedOptions(options.value)
    ensures translation == Translated(catalog, language, namespace, key, options)
  {
    translation := Lookup(catalog, language, namespace, key);
    if options.Some? {
      var params := options.value;
      ghost var looked := translation;
      var i := 0;
      while i < |params|
        invariant 0 <= i <= |params|
        invariant Interpolate(translation, params[i..]) == Interpolate(looked, params)
      {
        assert params[i..][1..] == params[i + 1..];
        translation := ReplaceAll(translation, Placeholder(params[i].name), params[i].value);
        i := i + 1;
      }
    }
  }

  /** Without options the result is the looked-up text, unchanged. */
  lemma WithoutOptionsIsLookup(catalog: Catalog, language: string, namespace: string, key: string)
    requires Resolvable(catalog, language, namespace, key)
    ensures Translated(catalog, language, namespace, key, None) == Lookup(catalog, language, namespace, key)
    ensures Translated(catalog, language, namespace, key, Some([])) == Lookup(catalog, language, namespace, key)
  {
  }

  // ---------------------------------------------------------------- templates

  /** A translation text seen as literal runs and `{{name}}` placeholders. */
  datatype Piece = Literal(text: string) | Hole(name: string)

  function RenderPiece(p: Piece): string {
    match p
    case Literal(text) => text
    case Hole(name) => Placeholder(name)
  }

  function Render(t: seq<Piece>): string {
    if t == [] then "" else RenderPiece(t[0]) + Render(t[1..])
  }

  predicate BraceFree(s: string) {
    '{' !in s && '}' !in s
  }

  /** Literal runs and placeholder names contain no braces. */
  predicate WellFormed(t: seq<Piece>) {
    forall i :: 0 <= i < |t| ==> BraceFree(if t[i].Literal? then t[i].text else t[i].name)
  }

  /** The value bound to `name` by the first option with that key, if any. */
  function Binding(params: seq<Param>, name: string): Option<string> {
    if params == [] then None
    else if params[0].name == name then Some(params[0].value)
    else Binding(params[1..], name)
  }

  /** Reference meaning of the options: every bound placeholder replaced at once, the rest kept. */
  function Substitute(t: seq<Piece>, params: seq<Param>): (r: seq<Piece>)
    ensures |r| == |t|
  {
    seq(|t|, i requires 0 <= i < |t| =>
      if t[i].Hole? && Binding(params, t[i].name).Some?
      then Literal(Binding(params, t[i].name).value) else t[i])
  }

  /** Replacing one placeholder name in a template. */
  function Fill(t: seq<Piece>, p: Param): (r: seq<Piece>)
    ensures |r| == |t|
  {
    seq(|t|, i requires 0 <= i < |t| => if t[i] == Hole(p.name) then Literal(p.value) else t[i])
  }

  /** `ReplaceAll` leaves a prefix alone when no occurrence of the pattern starts inside it. */
  lemma {:induction false} ReplaceSkipsPrefix(p: string, rest: string, pat: string, rep: string)
    requires pat != []
    requires forall i :: 0 <= i < |p| ==> !MatchAt(p + rest, i, pat)
    ensures ReplaceAll(p + rest, pat, rep) == p + ReplaceAll(rest, pat, rep)
    decreases |p|
  {
    var s := p + rest;
    if p == [] {
      assert s == rest;
    } else if |s| >= |pat| {
      assert !MatchAt(s, 0, pat);
      assert s[1..] == p[1..] + rest;
      forall i | 0 <= i < |p[1..]|
        ensures !MatchAt(p[1..] + rest, i, pat)
      {
        assert !MatchAt(s, i + 1, pat);
        if i + |pat| <= |p[1..] + rest| {
          assert (p[1..] + rest)[i..i + |pat|] == s[i + 1..i + 1 + |pat|];
        }
      }
      ReplaceSkipsPrefix(p[1..], rest, pat, rep);
      assert [s[0]] + p[1..] == p;
    }
  }

  /** No placeholder starts inside a brace-free literal run. */
  lemma LiteralHasNoMatch(text: string, rest: string, name: string)
    requires BraceFree(text)
    ensures forall i :: 0 <= i < |text| ==> !MatchAt(text + rest, i, Placeholder(name))
  {
    var pat := Placeholder(name);
    var s := text + rest;
    forall i | 0 <= i < |text| ensures !MatchAt(s, i, pat) {
      assert s[i] == text[i] && text[i] in text;
      if i + |pat| <= |s| {
        assert s[i..i + |pat|][0] != pat[0];
      }
    }
  }

  /** No occurrence of `{{name}}` starts inside `{{other}}` when the two brace-free names differ. */
  lemma OtherPlaceholderHasNoMatch(other: string, rest: string, name: string)
    requires BraceFree(other) && BraceFree(name) && other != name
    ensures forall i :: 0 <= i < |Placeholder(other)| ==>
              !MatchAt(Placeholder(other) + rest, i, Placeholder(name))
  {
    var q := Placeholder(other);
    var pat := Placeholder(name);
    var s := q + rest;
    forall i | 0 <= i < |q| ensures !MatchAt(s, i, pat) {
      if i + |pat| <= |s| {
        var w := s[i..i + |pat|];
        if i == 0 {
          // the closing braces of `{{other}}` and `{{name}}` cannot line up
          if |other| == |name| {
            assert w[2..2 + |name|] == q[2..2 + |other|] == other;
            assert pat[2..2 + |name|] == name;
          } else if |other| < |name| {
            assert name[|other|] in name;
            assert w[2 + |other|] == q[2 + |other|] == '}' != name[|other|] == pat[2 + |other|];
          } else {
            assert other[|name|] in other;
            assert w[2 + |name|] == q[2 + |name|] == other[|name|] != '}' == pat[2 + |name|];
          }
        } else if i == 1 {
          // the character after the second `{` of `{{other}}` is not a brace
          if |other| > 0 {
            assert other[0] in other;
            assert w[1] == q[2] == other[0] != '{' == pat[1];
          } else {
            assert w[1] == q[2] == '}' != pat[1];
          }
        } else {
          // from index 2 on, `{{other}}` holds no `{`
          if i < 2 + |other| {
            assert other[i - 2] in other;
            assert w[0] == q[i] == other[i - 2] != '{' == pat[0];
          } else {
            assert w[0] == q[i] == '}' != pat[0];
          }
        }
      }
    }
  }

  /** One global replacement of `{{p.name}}` over a rendered template fills exactly that placeholder. */
  lemma {:induction false} ReplaceFillsPlaceholder(t: seq<Piece>, p: Param)
    requires WellFormed(t) && BraceFree(p.name)
    ensures ReplaceAll(Render(t), Placeholder(p.name), p.value) == Render(Fill(t, p))
  {
    var pat := Placeholder(p.name);
    if t != [] {
      var head := RenderPiece(t[0]);
      var rest := Render(t[1..]);
      assert WellFormed(t[1..]) by {
        forall i | 0 <= i < |t[1..]| ensures BraceFree(if t[1..][i].Literal? then t[1..][i].text else t[1..][i].name) {
          assert t[1..][i] == t[i + 1];
        }
      }
      ReplaceFillsPlaceholder(t[1..], p);
      assert Fill(t, p) == [Fill(t, p)[0]] + Fill(t[1..], p);
      assert BraceFree(if t[0].Literal? then t[0].text else t[0].name);
      match t[0]
      case Literal(text) =>
        LiteralHasNoMatch(text, rest, p.name);
        ReplaceSkipsPrefix(text, rest, pat, p.value);
      case Hole(name) =>
        if name == p.name {
          assert (head + rest)[..|pat|] == pat;
          assert (head + rest)[|pat|..] == rest;
        } else {
          OtherPlaceholderHasNoMatch(name, rest, p.name);
          ReplaceSkipsPrefix(head, rest, pat, p.value);
        }
    }
  }

  /** Options whose keys and values contain no braces. */
  predicate BraceFreeParams(params: seq<Param>) {
    forall i :: 0 <= i < |params| ==> BraceFree(params[i].name) && BraceFree(params[i].value)
  }

  /**
   * Over a well-formed template, the sequential replacements of `t` give the
   * simultaneous substitution: each placeholder whose name is an option key
   * becomes the first such option's value, and every other placeholder stays.
   */
  lemma {:induction false} InterpolateSubstitutes(t: seq<Piece>, params: seq<Param>)
    requires WellFormed(t) && BraceFreeParams(params)
    ensures Interpolate(Render(t), params) == Render(Substitute(t, params))
    decreases params
  {
    if params == [] {
      assert Substitute(t, params) == t;
    } else {
      var p := params[0];
      ReplaceFillsPlaceholder(t, p);
      var filled := Fill(t, p);
      assert WellFormed(filled) by {
        forall i | 0 <= i < |filled|
          ensures BraceFree(if filled[i].Literal? then filled[i].text else filled[i].name)
        {
          assert BraceFree(if t[i].Literal? then t[i].text else t[i].name);
        }
      }
      assert BraceFreeParams(params[1..]) by {
        forall i | 0 <= i < |params[1..]|
          ensures BraceFree(params[1..][i].name) && BraceFree(params[1..][i].value)
        {
          assert params[1..][i] == params[i + 1];
        }
      }
      InterpolateSubstitutes(filled, params[1..]);
      assert Substitute(filled, params[1..]) == Substitute(t, params);
    }
  }

  /** A placeholder whose name is no option key is left in place. */
  lemma UnboundPlaceholderStays(t: seq<Piece>, params: seq<Param>, i: nat)
    requires i < |t| && t[i].Hole?
    requires forall j :: 0 <= j < |params| ==> params[j].name != t[i].name
    ensures Substitute(t, params)[i] == t[i]
  {
    UnboundName(params, t[i].name);
  }

  /** Without an option of that key, a name has no binding. */
  lemma {:induction false} UnboundName(params: seq<Param>, name: string)
    requires forall j :: 0 <= j < |params| ==> params[j].name != name
    ensures Binding(params, name) == None
  {
    if params != [] {
      assert params[0].name != name;
      UnboundName(params[1..], name);
    }
  }

  /** Putting it together for `t`: with options `t` accepts, a looked-up template is filled exactly as `Substitute` says. */
  lemma TranslationFillsTemplate(catalog: Catalog, language: string, namespace: string, key: string,
                                 t: seq<Piece>, params: seq<Param>)
    requires Resolvable(catalog, language, namespace, key)
    requires Lookup(catalog, language, namespace, key) == Render(t)
    requires WellFormed(t) && BraceFreeParams(params) && SupportedOptions(params)
    ensures Translated(catalog, language, namespace, key, Some(params)) == Render(Substitute(t, params))
  {
    InterpolateSubstitutes(t, params);
  }
}
