/**
 * Translation resolution (app.js, getTranslation): a dotted key is split on
 * '.' and walked, segment by segment, through the nested translation object
 * of the current language, with optional chaining so that a missing segment
 * yields `undefined` for the rest of the walk instead of an exception.
 */
module I18n {
  import opened Wrappers

  /** A value of the translation object: a string leaf or a string-keyed object. */
  datatype Tree = Leaf(text: string) | Node(children: map<string, Tree>)

  /** The whole translation table: language code to that language's tree. */
  type Table = map<string, Tree>

  // ---------------------------------------------------------------------------
  // Splitting a key on '.'
  // ---------------------------------------------------------------------------

  /** The segments joined back together with '.' between them. */
  function Join(segs: seq<string>): string
    requires |segs| >= 1
  {
    if |segs| == 1 then segs[0] else segs[0] + "." + Join(segs[1..])
  }

  /** No segment contains the separator. */
  predicate DotFree(segs: seq<string>)
  {
    forall i :: 0 <= i < |segs| ==> '.' !in segs[i]
  }

  /**
   * `key.split('.')`: one segment per separator plus one, empty segments
   * included ("a..b" gives "a", "", "b"; "" gives the single segment "").
   */
  function Split(s: string): (r: seq<string>)
    ensures |r| >= 1
    ensures DotFree(r)
    ensures Join(r) == s
  {
    if s == [] then [""]
    else if s[0] == '.' then
      var t := Split(s[1..]);
      assert s == "." + s[1..];
      [""] + t
    else
      var t := Split(s[1..]);
      var r := [[s[0]] + t[0]] + t[1..];
      assert r[1..] == t[1..];
      assert |t| > 1 ==> Join(r) == [s[0]] + (t[0] + "." + Join(t[1..]));
      r
  }

  /** A dot-free string is a single segment. */
  lemma SplitSingle(w: string)
    requires '.' !in w
    ensures Split(w) == [w]
  {
  }

  /** Splitting stops at the first '.': the dot-free prefix is the first segment. */
  lemma {:induction false} SplitAtFirstDot(w: string, t: string)
    requires '.' !in w
    ensures Split(w + "." + t) == [w] + Split(t)
  {
    if w == [] {
      assert w + "." + t == "." + t;
      assert ("." + t)[1..] == t;
    } else {
      SplitAtFirstDot(w[1..], t);
      assert (w + "." + t)[1..] == w[1..] + "." + t;
      assert [w[0]] + w[1..] == w;
    }
  }

  /** Split undoes Join: a key built from dot-free segments splits back into them. */
  lemma {:induction false} SplitJoin(segs: seq<string>)
    requires |segs| >= 1 && DotFree(segs)
    ensures Split(Join(segs)) == segs
  {
    if |segs| == 1 {
      SplitSingle(segs[0]);
    } else {
      assert DotFree(segs[1..]) by {
        forall i | 0 <= i < |segs[1..]| ensures '.' !in segs[1..][i] {
          assert segs[1..][i] == segs[i + 1];
        }
      }
      SplitJoin(segs[1..]);
      SplitAtFirstDot(segs[0], Join(segs[1..]));
      assert [segs[0]] + segs[1..] == segs;
    }
  }

  /** Joining a concatenation puts one '.' between the two joins. */
  lemma {:induction false} JoinAppend(a: seq<string>, b: seq<string>)
    requires |a| >= 1 && |b| >= 1
    ensures Join(a + b) == Join(a) + "." + Join(b)
  {
    if |a| == 1 {
      assert (a + b)[1..] == b;
    } else {
      JoinAppend(a[1..], b);
      assert (a + b)[1..] == a[1..] + b;
    }
  }

  /** The segments of "p.q" are the segments of p followed by those of q. */
  lemma SplitDotted(p: string, q: string)
    ensures Split(p + "." + q) == Split(p) + Split(q)
  {
    var segs := Split(p) + Split(q);
    assert DotFree(segs) by {
      forall i | 0 <= i < |segs| ensures '.' !in segs[i] {
        if i < |Split(p)| {
          assert segs[i] == Split(p)[i];
        } else {
          assert segs[i] == Split(q)[i - |Split(p)|];
        }
      }
    }
    JoinAppend(Split(p), Split(q));
    SplitJoin(segs);
  }

  // ---------------------------------------------------------------------------
  // Walking the segments
  // ---------------------------------------------------------------------------

  /** One `value?.[k]` step; indexing into a string leaf counts as absent. */
  function Step(v: Option<Tree>, k: string): Option<Tree>
  {
    match v
    case Some(Node(m)) => if k in m then Some(m[k]) else None
    case _ => None
  }

  /** The loop of getTranslation, segment by segment, from the start value v. */
  function Walk(v: Option<Tree>, keys: seq<string>): Option<Tree>
    decreases |keys|
  {
    if keys == [] then v else Walk(Step(v, keys[0]), keys[1..])
  }

  /** `translations[currentLanguage]`. */
  function Root(table: Table, lang: string): Option<Tree>
  {
    if lang in table then Some(table[lang]) else None
  }

  /** getTranslation(key) with `lang` as the current language. */
  function Resolve(table: Table, lang: string, key: string): Option<Tree>
  {
    Walk(Root(table, lang), Split(key))
  }

  /** getTranslation as the source writes it: a loop reassigning `value`; it changes nothing. */
  method GetTranslation(table: Table, lang: string, key: string) returns (value: Option<Tree>)
    ensures value == Resolve(table, lang, key)
  {
    var keys := Split(key);
    value := Root(table, lang);
    for i := 0 to |keys|
      invariant Walk(value, keys[i..]) == Resolve(table, lang, key)
    {
      assert keys[i..][1..] == keys[i + 1..];
      value := Step(value, keys[i]);
    }
  }

  /** Once the walk is undefined it stays undefined, whatever segments remain. */
  lemma {:induction false} WalkFromNone(keys: seq<string>)
    ensures Walk(None, keys) == None
    decreases |keys|
  {
    if keys != [] {
      WalkFromNone(keys[1..]);
    }
  }

  /** Walking a + b is walking a, then walking b from where a ended. */
  lemma {:induction false} WalkAppend(v: Option<Tree>, a: seq<string>, b: seq<string>)
    ensures Walk(v, a + b) == Walk(Walk(v, a), b)
    decreases |a|
  {
    if a == [] {
      assert a + b == b;
    } else {
      assert (a + b)[1..] == a[1..] + b;
      WalkAppend(Step(v, a[0]), a[1..], b);
    }
  }

  /** A segment that is absent makes the whole lookup undefined, without error. */
  lemma WalkStopsAtMissing(v: Option<Tree>, keys: seq<string>, i: nat)
    requires i <= |keys|
    requires Walk(v, keys[..i]) == None
    ensures Walk(v, keys) == None
  {
    assert keys == keys[..i] + keys[i..];
    WalkAppend(v, keys[..i], keys[i..]);
    WalkFromNone(keys[i..]);
  }

  /** Indexing below a string leaf is undefined. */
  lemma WalkBelowLeaf(v: Option<Tree>, keys: seq<string>, i: nat)
    requires i < |keys|
    requires Walk(v, keys[..i]).Some? && Walk(v, keys[..i]).value.Leaf?
    ensures Walk(v, keys) == None
  {
    assert keys == keys[..i] + keys[i..];
    WalkAppend(v, keys[..i], keys[i..]);
    assert keys[i..][1..] == keys[i + 1..];
    WalkFromNone(keys[i + 1..]);
  }

  /** A language with no entry in the table resolves every key to undefined. */
  lemma ResolveUnknownLanguage(table: Table, lang: string, key: string)
    requires lang !in table
    ensures Resolve(table, lang, key) == None
  {
    WalkFromNone(Split(key));
  }

  /** Resolving "p.q" is resolving p and walking the segments of q from there. */
  lemma ResolveDotted(table: Table, lang: string, p: string, q: string)
    ensures Resolve(table, lang, p + "." + q) == Walk(Resolve(table, lang, p), Split(q))
  {
    SplitDotted(p, q);
    WalkAppend(Root(table, lang), Split(p), Split(q));
  }

  /** "a.b.c" where "a.b" is a string leaf resolves to undefined, not an error. */
  lemma ResolveBelowLeaf(table: Table, lang: string, p: string, q: string)
    requires Resolve(table, lang, p).Some? && Resolve(table, lang, p).value.Leaf?
    ensures Resolve(table, lang, p + "." + q) == None
  {
    ResolveDotted(table, lang, p, q);
    WalkFromNone(Split(q)[1..]);
  }

  // ---------------------------------------------------------------------------
  // Translatable elements
  // ---------------------------------------------------------------------------

  /** JavaScript truthiness of a lookup result: undefined and "" are falsy. */
  predicate Truthy(r: Option<Tree>)
  {
    match r
    case None => false
    case Some(Leaf(s)) => s != ""
    case Some(Node(_)) => true
  }

  /** What `textContent = value` displays for a looked-up value. */
  function Display(t: Tree): string
  {
    match t
    case Leaf(s) => s
    case Node(_) => "[object Object]"
  }

  /** An element carrying a data-i18n key and its current text. */
  datatype Label = Label(key: string, text: string)

  /** One element after the language switch: its text is replaced only by a truthy lookup. */
  function Retranslated(l: Label, table: Table, lang: string): (r: Label)
    ensures r.key == l.key
    ensures r.text != l.text ==> Truthy(Resolve(table, lang, l.key))
    ensures Truthy(Resolve(table, lang, l.key)) ==> r.text == Display(Resolve(table, lang, l.key).value)
  {
    var t := Resolve(table, lang, l.key);
    if Truthy(t) then Label(l.key, Display(t.value)) else l
  }

  /** Switching to the same language twice shows the same texts as switching once. */
  lemma RetranslatedIdempotent(l: Label, table: Table, lang: string)
    ensures Retranslated(Retranslated(l, table, lang), table, lang) == Retranslated(l, table, lang)
  {
  }

  /** Under a language missing from the table no element's text changes. */
  lemma RetranslatedUnknownLanguage(l: Label, table: Table, lang: string)
    requires lang !in table
    ensures Retranslated(l, table, lang) == l
  {
    ResolveUnknownLanguage(table, lang, l.key);
  }
}
