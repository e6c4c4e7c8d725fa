/** The quote normaliser: replaces the eight typographic Unicode quotation
    marks with the two ASCII quote characters, leaving everything else alone.
    Only the in-memory substitution is modelled; reading and writing the file
    are not. */
module FixQuotes {

  /** One entry of the substitution table: a character and what replaces it. */
  datatype Replacement = Replacement(from: char, to: char)

  /** The substitution table, in the order of its dictionary literal. */
  const Replacements: seq<Replacement> := [
    Replacement('\U{2018}', '\''),  // left single quotation mark
    Replacement('\U{2019}', '\''),  // right single quotation mark
    Replacement('\U{201B}', '\''),  // single high-reversed-9 quotation mark
    Replacement('\U{201A}', '\''),  // single low-9 quotation mark
    Replacement('\U{201C}', '"'),   // left double quotation mark
    Replacement('\U{201D}', '"'),   // right double quotation mark
    Replacement('\U{201F}', '"'),   // double high-reversed-9 quotation mark
    Replacement('\U{201E}', '"')    // double low-9 quotation mark
  ]

  predicate IsKey(t: seq<Replacement>, c: char) {
    exists i :: 0 <= i < |t| && t[i].from == c
  }

  /** A dictionary's keys are distinct. */
  predicate DistinctKeys(t: seq<Replacement>) {
    forall i, j :: 0 <= i < j < |t| ==> t[i].from != t[j].from
  }

  /** No replacement character is itself a key, so a later pass never
      rewrites what an earlier pass produced. */
  predicate NoValueIsKey(t: seq<Replacement>) {
    forall i, j :: 0 <= i < |t| && 0 <= j < |t| ==> t[i].to != t[j].from
  }

  /** What the table does to one character: the value of the first entry
      whose key it is, or the character itself. */
  function Lookup(t: seq<Replacement>, c: char): (r: char)
    // a character the table changes is one of its keys
    ensures r != c ==> IsKey(t, c)
    decreases |t|
  {
    if t == [] then c
    else if t[0].from == c then t[0].to
    else Lookup(t[1..], c)
  }

  /** The specification: every character mapped through the table. */
  function Normalize(s: string): string {
    seq(|s|, k requires 0 <= k < |s| => Lookup(Replacements, s[k]))
  }

  /** Python's `s.replace(old, new)` for a one-character `old`: every
      occurrence is replaced and nothing else changes. */
  function Replace(s: string, from: char, to: char): (r: string)
    ensures |r| == |s|
    ensures forall k :: 0 <= k < |s| ==> r[k] == (if s[k] == from then to else s[k])
  {
    if s == [] then []
    else [if s[0] == from then to else s[0]] + Replace(s[1..], from, to)
  }

  /** The loop of the script read as a fold: replace with each entry of `t`
      in turn. */
  function ReplaceAll(t: seq<Replacement>, s: string): (r: string)
    ensures |r| == |s|
    ensures forall k :: 0 <= k < |s| && !IsKey(t, s[k]) && !IsKey(t, r[k]) ==> r[k] == s[k]
    decreases |t|
  {
    if t == [] then s else ReplaceAll(t[1..], Replace(s, t[0].from, t[0].to))
  }

  /** The script's replace loop: one `replace` per table entry, reassigning
      the text each time. The result is the per-character map. */
  method FixQuotes(content: string) returns (result: string)
    ensures result == Normalize(content)
  {
    result := content;
    var i := 0;
    while i < |Replacements|
      invariant 0 <= i <= |Replacements|
      invariant |result| == |content|
      invariant forall k :: 0 <= k < |content| ==> result[k] == Lookup(Replacements[..i], content[k])
    {
      var entry := Replacements[i];
      forall k | 0 <= k < |content|
        ensures (if result[k] == entry.from then entry.to else result[k])
                == Lookup(Replacements[..i + 1], content[k])
      {
        LookupSnoc(Replacements[..i], entry, content[k]);
        assert Replacements[..i] + [entry] == Replacements[..i + 1];
        if IsKey(Replacements[..i], content[k]) {
          LookupOfKey(Replacements[..i], content[k]);
          var j :| 0 <= j < i && Replacements[..i][j].from == content[k]
                   && Lookup(Replacements[..i], content[k]) == Replacements[..i][j].to;
          ReplacementsWellFormed();
          assert Replacements[j].to != entry.from;
        } else {
          LookupNotKey(Replacements[..i], content[k]);
        }
      }
      result := Replace(result, entry.from, entry.to);
      i := i + 1;
    }
    assert Replacements[..i] == Replacements;
  }

  // ---------------------------------------------------------------------------
  // Lemmas about Lookup

  lemma {:induction false} LookupNotKey(t: seq<Replacement>, c: char)
    requires !IsKey(t, c)
    ensures Lookup(t, c) == c
  {
    if t != [] {
      assert t[0].from != c;
      assert !IsKey(t[1..], c) by {
        forall i | 0 <= i < |t[1..]|
          ensures t[1..][i].from != c
        {
          assert t[1..][i] == t[i + 1];
        }
      }
      LookupNotKey(t[1..], c);
    }
  }

  /** A key is mapped to the value of one of the entries. */
  lemma {:induction false} LookupOfKey(t: seq<Replacement>, c: char)
    requires IsKey(t, c)
    ensures exists i :: 0 <= i < |t| && t[i].from == c && Lookup(t, c) == t[i].to
  {
    if t[0].from != c {
      var i :| 0 <= i < |t| && t[i].from == c;
      assert t[1..][i - 1].from == c;
      LookupOfKey(t[1..], c);
      var j :| 0 <= j < |t[1..]| && t[1..][j].from == c && Lookup(t[1..], c) == t[1..][j].to;
      assert t[j + 1].from == c;
    }
  }

  /** With distinct keys, a key is mapped to the value of its own entry. */
  lemma {:induction false} LookupEntry(t: seq<Replacement>, i: nat)
    requires DistinctKeys(t) && i < |t|
    ensures Lookup(t, t[i].from) == t[i].to
  {
    if i > 0 {
      assert t[0].from != t[i].from;
      assert t[1..][i - 1] == t[i];
      LookupEntry(t[1..], i - 1);
    }
  }

  /** Appending an entry to the table only affects characters that were not
      keys before. */
  lemma {:induction false} LookupSnoc(t: seq<Replacement>, e: Replacement, c: char)
    ensures Lookup(t + [e], c) ==
      if IsKey(t, c) then Lookup(t, c) else if e.from == c then e.to else c
  {
    if t == [] {
      assert t + [e] == [e];
    } else {
      assert (t + [e])[1..] == t[1..] + [e];
      LookupSnoc(t[1..], e, c);
      if t[0].from != c {
        if IsKey(t, c) {
          var i :| 0 <= i < |t| && t[i].from == c;
          assert t[1..][i - 1].from == c;
        }
        if IsKey(t[1..], c) {
          var i :| 0 <= i < |t[1..]| && t[1..][i].from == c;
          assert t[i + 1].from == c;
        }
      } else {
        assert IsKey(t, c) by { assert t[0].from == c; }
      }
    }
  }

  // ---------------------------------------------------------------------------
  // Properties of the table and of the normaliser

  lemma ReplacementsWellFormed()
    ensures |Replacements| == 8
    ensures DistinctKeys(Replacements)
    ensures NoValueIsKey(Replacements)
  {
  }

  /** Every occurrence of a table key becomes that key's ASCII quote. */
  lemma NormalizeReplacesKeys(s: string, k: nat, i: nat)
    requires k < |s| && i < |Replacements| && s[k] == Replacements[i].from
    ensures Normalize(s)[k] == Replacements[i].to
    ensures Normalize(s)[k] == '\'' || Normalize(s)[k] == '"'
  {
    ReplacementsWellFormed();
    LookupEntry(Replacements, i);
  }

  /** Characters that are not keys, the ASCII quotes among them, pass
      through unchanged, and the length is preserved. */
  lemma NormalizePassesThrough(s: string, k: nat)
    requires k < |s| && !IsKey(Replacements, s[k])
    ensures |Normalize(s)| == |s|
    ensures Normalize(s)[k] == s[k]
  {
    LookupNotKey(Replacements, s[k]);
  }

  lemma AsciiQuotesAreNotKeys()
    ensures !IsKey(Replacements, '\'') && !IsKey(Replacements, '"')
  {
  }

  /** After normalising, no table key remains in the text. */
  lemma {:induction false} NormalizeRemovesKeys(s: string)
    ensures forall k :: 0 <= k < |Normalize(s)| ==> !IsKey(Replacements, Normalize(s)[k])
  {
    forall k | 0 <= k < |Normalize(s)|
      ensures !IsKey(Replacements, Normalize(s)[k])
    {
      if IsKey(Replacements, s[k]) {
        LookupOfKey(Replacements, s[k]);
        ReplacementsWellFormed();
      } else {
        LookupNotKey(Replacements, s[k]);
      }
    }
  }

  /** Running the normaliser twice is the same as running it once. */
  lemma {:induction false} NormalizeIdempotent(s: string)
    ensures Normalize(Normalize(s)) == Normalize(s)
  {
    NormalizeRemovesKeys(s);
    var n := Normalize(s);
    forall k | 0 <= k < |n|
      ensures Normalize(n)[k] == n[k]
    {
      LookupNotKey(Replacements, n[k]);
    }
  }

  /** The fold of replacements is the per-character lookup, for any table
      whose replacement values are not keys. */
  lemma {:induction false} ReplaceAllIsLookup(t: seq<Replacement>, s: string)
    requires NoValueIsKey(t)
    ensures |ReplaceAll(t, s)| == |s|
    ensures forall k :: 0 <= k < |s| ==> ReplaceAll(t, s)[k] == Lookup(t, s[k])
  {
    if t != [] {
      var s' := Replace(s, t[0].from, t[0].to);
      assert NoValueIsKey(t[1..]) by {
        forall i, j | 0 <= i < |t[1..]| && 0 <= j < |t[1..]|
          ensures t[1..][i].to != t[1..][j].from
        {
          assert t[i + 1].to != t[j + 1].from;
        }
      }
      ReplaceAllIsLookup(t[1..], s');
      forall k | 0 <= k < |s|
        ensures ReplaceAll(t, s)[k] == Lookup(t, s[k])
      {
        if s[k] == t[0].from {
          assert !IsKey(t[1..], t[0].to) by {
            forall j | 0 <= j < |t[1..]|
              ensures t[1..][j].from != t[0].to
            {
              assert t[1..][j] == t[j + 1];
            }
          }
          LookupNotKey(t[1..], t[0].to);
        }
      }
    }
  }

  /** The dictionary's iteration order does not matter: any ordering of the
      same entries (keys still distinct) gives the same text. */
  lemma TableOrderIrrelevant(t: seq<Replacement>, s: string)
    requires DistinctKeys(t)
    requires forall e :: e in t <==> e in Replacements
    ensures ReplaceAll(t, s) == Normalize(s)
  {
    ReplacementsWellFormed();
    assert NoValueIsKey(t) by {
      forall i, j | 0 <= i < |t| && 0 <= j < |t|
        ensures t[i].to != t[j].from
      {
        assert t[i] in Replacements && t[j] in Replacements;
      }
    }
    ReplaceAllIsLookup(t, s);
    forall k | 0 <= k < |s|
      ensures Lookup(t, s[k]) == Lookup(Replacements, s[k])
    {
      if IsKey(t, s[k]) {
        var i :| 0 <= i < |t| && t[i].from == s[k];
        assert t[i] in Replacements;
        var j :| 0 <= j < |Replacements| && Replacements[j] == t[i];
        LookupEntry(t, i);
        LookupEntry(Replacements, j);
      } else {
        LookupNotKey(t, s[k]);
        assert !IsKey(Replacements, s[k]) by {
          forall j | 0 <= j < |Replacements|
            ensures Replacements[j].from != s[k]
          {
            assert Replacements[j] in t;
            var i :| 0 <= i < |t| && t[i] == Replacements[j];
          }
        }
        LookupNotKey(Replacements, s[k]);
      }
    }
  }

  /** The table in closed form: four single-quote variants become `'`, four
      double-quote variants become `"`, every other character is kept. */
  lemma QuoteMapping(c: char)
    ensures Lookup(Replacements, c) ==
      if c in {'\U{2018}', '\U{2019}', '\U{201A}', '\U{201B}'} then '\''
      else if c in {'\U{201C}', '\U{201D}', '\U{201E}', '\U{201F}'} then '"'
      else c
  {
    ReplacementsWellFormed();
    if IsKey(Replacements, c) {
      var i :| 0 <= i < |Replacements| && Replacements[i].from == c;
      LookupEntry(Replacements, i);
    } else {
      LookupNotKey(Replacements, c);
    }
  }

  /** Low-9 and high-reversed-9 double quotes become two ASCII double quotes. */
  lemma ExampleLowAndReversedDoubleQuotes()
    ensures Normalize("\U{201E}\U{201F}") == "\"\""
  {
    QuoteMapping('\U{201E}');
    QuoteMapping('\U{201F}');
  }

  /** Every key lies in the General Punctuation block, so ASCII text passes
      through unchanged. */
  lemma AsciiPassesThrough(c: char)
    requires c < '\U{80}'
    ensures Lookup(Replacements, c) == c
  {
    LookupNotKey(Replacements, c);
  }

  lemma ExampleSentence()
    ensures Normalize("He said \U{201C}Hello\U{2019}\U{201D}") == "He said \"Hello'\""
  {
    var s := "He said \U{201C}Hello\U{2019}\U{201D}";
    var e := "He said \"Hello'\"";
    forall k | 0 <= k < |s|
      ensures Normalize(s)[k] == e[k]
    {
      if k == 8 || k == 14 || k == 15 {
        QuoteMapping(s[k]);
      } else {
        AsciiPassesThrough(s[k]);
      }
    }
  }
}
