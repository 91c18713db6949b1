/** User-registered endpoints: slugs, unique ids and the credentials keys derived from them
    (internal/customprovider/store.go). */
module CustomProviders {
  import opened Options
  import opened Text
  import opened Decimal
  import Sets

  // ---------------------------------------------------------------- slugs

  /** strings.ToLower, as far as it yields ASCII: two non-ASCII letters have ASCII lower case. */
  function Lower(c: char): char {
    if 'A' <= c <= 'Z' then (c as int + 32) as char
    else if c == '\U{130}' then 'i' else if c == '\U{212A}' then 'k' else c
  }

  predicate Alnum(c: char) { 'a' <= c <= 'z' || '0' <= c <= '9' }

  predicate InWord(c: char) { Alnum(Lower(c)) }

  /** The maximal alphanumeric runs of a name, in lower case. */
  function Words(name: string): (w: seq<string>)
    ensures name != "" && InWord(name[|name| - 1]) ==> w != []
  {
    if name == "" then []
    else
      var front, c := name[..|name| - 1], name[|name| - 1];
      var w := Words(front);
      if !InWord(c) then w
      else if front != "" && InWord(front[|front| - 1]) then w[..|w| - 1] + [w[|w| - 1] + [Lower(c)]]
      else w + [[Lower(c)]]
  }

  /** The words joined by single dashes, or a fallback for a name without any. */
  function Slug(name: string): string { if Words(name) == [] then "provider" else Join(Words(name), "-") }

  predicate SlugChar(c: char) { Alnum(c) || c == '-' }

  /** Lower-case words separated by single dashes. */
  predicate IsSlug(id: string) {
    id != "" && id[0] != '-' && id[|id| - 1] != '-' && (forall i | 0 <= i < |id| :: SlugChar(id[i])) &&
    forall i | 0 < i < |id| :: id[i - 1] == '-' ==> id[i] != '-'
  }

  predicate Word(w: string) { w != "" && forall i | 0 <= i < |w| :: Alnum(w[i]) }

  lemma {:induction false} WordsAreWords(name: string)
    ensures forall i | 0 <= i < |Words(name)| :: Word(Words(name)[i])
  {
    if name != "" {
      WordsAreWords(name[..|name| - 1]);
    }
  }

  lemma {:induction false} JoinIsSlug(words: seq<string>)
    requires words != [] && forall i | 0 <= i < |words| :: Word(words[i])
    ensures IsSlug(Join(words, "-"))
  {
    if |words| > 1 {
      JoinIsSlug(words[..|words| - 1]);
      var head, last := Join(words[..|words| - 1], "-"), words[|words| - 1];
      assert Join(words, "-") == head + "-" + last;
      hide Join;
      SlugThenWord(head, last);
    } else {
      OneWord(words[0]);
    }
  }

  lemma OneWord(w: string)
    requires Word(w)
    ensures IsSlug(w)
  {
    assert forall i | 0 <= i < |w| :: Alnum(w[i]) && w[i] != '-';
  }

  lemma SlugThenWord(head: string, w: string)
    requires IsSlug(head) && Word(w)
    ensures IsSlug(head + "-" + w)
  {
    var s, k := head + "-" + w, |head| + 1;
    assert forall i | k <= i < |s| :: s[i] == w[i - k] && Alnum(s[i]);
    forall i | 0 < i < |s| && s[i - 1] == '-' ensures s[i] != '-' {
      if i < |head| { assert head[i - 1] == '-'; }
    }
  }

  /** Every name gets a slug. */
  lemma SlugShape(name: string)
    ensures IsSlug(Slug(name))
  {
    if Words(name) != [] {
      WordsAreWords(name);
      JoinIsSlug(Words(name));
    }
  }

  /** A dash belongs at the end of what has been written when the last word is over. */
  function Written(name: string): string {
    Join(Words(name), "-") + if Words(name) != [] && !InWord(name[|name| - 1]) then "-" else ""
  }

  lemma JoinNext(words: seq<string>, w: string)
    ensures Join(words + [w], "-") == if words == [] then w else Join(words, "-") + "-" + w
  {
    if words == [] { assert words + [w] == [w]; } else { assert (words + [w])[..|words|] == words; }
  }

  lemma JoinGrow(words: seq<string>, w: string, c: char)
    ensures Join(words + [w + [c]], "-") == Join(words + [w], "-") + [c]
  {
    JoinNext(words, w);
    JoinNext(words, w + [c]);
  }

  lemma WrittenNext(name: string, c: char)
    ensures Written(name + [c])
         == if InWord(c) then Written(name) + [Lower(c)]
            else if Written(name) != "" && !Dashed(name) then Written(name) + "-" else Written(name)
    ensures Dashed(name + [c]) <==> !InWord(c) && Written(name) != ""
  {
    var w := Words(name);
    WordsNext(name, c);
    JoinEmpty(name);
    hide Words, Join, InWord, Lower;
    assert (name + [c])[|name|] == c && Join(w, "-") + "" == Join(w, "-");
    if InWord(c) {
      if name != "" && InWord(name[|name| - 1]) {
        assert w == w[..|w| - 1] + [w[|w| - 1]];
        JoinGrow(w[..|w| - 1], w[|w| - 1], Lower(c));
      } else {
        JoinNext(w, [Lower(c)]);
      }
    }
  }

  lemma WordsNext(name: string, c: char)
    ensures if name == "" then Words(name) == [] else InWord(name[|name| - 1]) ==> Words(name) != []
    ensures var w := Words(name);
            Words(name + [c]) ==
              if !InWord(c) then w
              else if name != "" && InWord(name[|name| - 1]) then w[..|w| - 1] + [w[|w| - 1] + [Lower(c)]]
              else w + [[Lower(c)]]
  {
    assert (name + [c])[..|name|] == name;
    hide InWord, Lower;
  }

  lemma JoinEmpty(name: string)
    ensures Join(Words(name), "-") == "" <==> Words(name) == []
  {
    WordsAreWords(name);
    if Words(name) != [] { JoinIsSlug(Words(name)); }
    hide Words, Join;
  }

  predicate Dashed(name: string) { Words(name) != [] && !InWord(name[|name| - 1]) }

  lemma TrimOne(s: string)
    requires IsSlug(s)
    ensures s != "" && TrimSuffix(s, "-") == s && TrimSuffix(s + "-", "-") == s
  {
    assert (s + "-")[|s|..] == "-" && (s + "-")[..|s|] == s;
    assert s[|s| - 1..][0] == s[|s| - 1];
  }

  lemma WrittenIs(name: string)
    ensures Words(name) == [] ==> Written(name) == ""
    ensures Words(name) != [] ==>
              IsSlug(Slug(name)) && (Written(name) == Slug(name) || Written(name) == Slug(name) + "-")
  {
    WordsAreWords(name);
    if Words(name) != [] { JoinIsSlug(Words(name)); }
    hide Words, Join, IsSlug, InWord;
  }

  lemma TrimDash(name: string)
    ensures Written(name) == "" <==> Words(name) == []
    ensures Words(name) != [] ==> TrimSuffix(Written(name), "-") == Slug(name) != ""
  {
    WrittenIs(name);
    hide *;
    if Words(name) != [] { TrimOne(Slug(name)); }
  }

  method Slugify(name: string) returns (id: string)
    ensures id == Slug(name)
  {
    var b, prevDash := "", false;
    for i := 0 to |name|
      invariant b == Written(name[..i]) && prevDash == Dashed(name[..i])
    {
      assert name[..i + 1] == name[..i] + [name[i]];
      WrittenNext(name[..i], name[i]);
      hide Written, Dashed;
      var r := Lower(name[i]);
      if Alnum(r) {
        b := b + [r];
        prevDash := false;
      } else if !prevDash && |b| > 0 {
        b := b + "-";
        prevDash := true;
      }
    }
    assert name[..|name|] == name;
    TrimDash(name);
    hide Words, Written, Join, Dashed;
    id := TrimSuffix(b, "-");
    if id == "" {
      id := "provider";
    }
  }

  /** What a slug can start with. */
  predicate SlugStart(s: string) {
    (s != "" ==> s[0] != '-') && (forall i | 0 <= i < |s| :: SlugChar(s[i])) &&
    forall i | 0 < i < |s| :: s[i - 1] == '-' ==> s[i] != '-'
  }

  lemma {:induction false} SlugIsWritten(s: string)
    requires SlugStart(s)
    ensures Written(s) == s
  {
    if s != "" {
      var front, c := s[..|s| - 1], s[|s| - 1];
      assert s == front + [c];
      SlugIsWritten(front);
      WrittenNext(front, c);
      hide Written, Words;
      assert front == "" ==> !Dashed(front) || c != '-';
      if c == '-' { assert front != "" && Alnum(front[|front| - 1]); }
    }
  }

  /** Slugs are fixed points, so slugging a slug changes nothing. */
  lemma SlugIsFixed(id: string)
    requires IsSlug(id)
    ensures Slug(id) == id
  {
    SlugIsWritten(id);
    TrimDash(id);
    assert id[|id| - 1..][0] == id[|id| - 1];
    hide Written, Words;
  }

  // ---------------------------------------------------------------- what a slug says of its name

  /** A letter or digit of ASCII, or one of the two other letters whose lower case is one. */
  predicate Letter(c: char) {
    'a' <= c <= 'z' || 'A' <= c <= 'Z' || '0' <= c <= '9' || c == '\U{130}' || c == '\U{212A}'
  }

  predicate Lettered(s: string) { exists i :: 0 <= i < |s| && Letter(s[i]) }

  /** The words after one more character. */
  function Spelled(w: seq<string>, inWord: bool, goesOn: bool, c: char): seq<string>
    requires inWord && goesOn ==> w != []
  {
    if !inWord then w else if goesOn then w[..|w| - 1] + [w[|w| - 1] + [c]] else w + [[c]]
  }

  lemma WordsSpelled(name: string, c: char)
    ensures (Open(name) ==> Words(name) != []) && !Open("") && Words("") == []
    ensures Words(name + [c]) == Spelled(Words(name), InWord(c), Open(name), Lower(c))
  {
    WordsNext(name, c);
    assert Words("") == [];
    hide Words, InWord, Lower;
  }

  lemma SpelledBehind(w: seq<string>, v: seq<string>, inWord: bool, goesOn: bool, c: char)
    requires inWord && goesOn ==> v != []
    ensures Spelled(w + v, inWord, goesOn, c) == w + Spelled(v, inWord, goesOn, c)
  {
    if v != [] { assert (w + v)[..|w + v| - 1] == w + v[..|v| - 1]; }
  }

  /** Whether the word a name ends in goes on. */
  predicate Open(name: string) { name != "" && InWord(name[|name| - 1]) }

  lemma OpenBehind(a: string, b: string)
    ensures b != "" ==> (Open(a + b) <==> Open(b))
  {
  }

  /** Words do not reach across anything that is not a letter. */
  lemma {:induction false} WordsSplit(a: string, b: string)
    requires a == "" || b == "" || !InWord(a[|a| - 1]) || !InWord(b[0])
    ensures Words(a + b) == Words(a) + Words(b)
  {
    NoWords("");
    hide *;
    if b == "" {
      assert a + b == a && Words(a) + [] == Words(a);
    } else if |b| == 1 {
      assert [] + b == b && b == [b[0]];
      WordsSpelled(a, b[0]);
      WordsSpelled("", b[0]);
      SplitAtOne(a, b[0]);
    } else {
      var front, c := b[..|b| - 1], b[|b| - 1];
      assert a + front + [c] == a + b && front + [c] == b && front[0] == b[0];
      WordsSplit(a, front);
      WordsSpelled(a + front, c);
      WordsSpelled(front, c);
      OpenBehind(a, front);
      SpelledBehind(Words(a), Words(front), InWord(c), Open(front), Lower(c));
    }
  }

  lemma SplitAtOne(a: string, c: char)
    requires a == "" || !InWord(a[|a| - 1]) || !InWord(c)
    requires Open(a) ==> Words(a) != []
    ensures Spelled(Words(a), InWord(c), Open(a), Lower(c)) == Words(a) + Spelled([], InWord(c), false, Lower(c))
  {
    assert Open(a) ==> !InWord(c);
    hide *;
    SpelledApart(Words(a), InWord(c), Open(a), Lower(c));
  }

  lemma SpelledApart(w: seq<string>, inWord: bool, goesOn: bool, c: char)
    requires (goesOn ==> w != []) && !(inWord && goesOn)
    ensures Spelled(w, inWord, goesOn, c) == w + Spelled([], inWord, false, c)
  {
  }

  lemma {:induction false} NoWords(s: string)
    requires !Lettered(s)
    ensures Words(s) == []
  {
    if s != "" {
      assert !Letter(s[|s| - 1]);
      NoWords(s[..|s| - 1]);
    }
  }

  lemma {:induction false} SomeWords(s: string)
    requires Lettered(s)
    ensures Words(s) != []
  {
    var n := |s| - 1;
    var i :| 0 <= i < |s| && Letter(s[i]);
    if i < n {
      assert s[..n][i] == s[i];
      SomeWords(s[..n]);
    }
  }

  /** Whatever holds no letter or digit separates two words by one dash and is dropped at either end. */
  lemma SlugSeparates(a: string, gap: string, b: string)
    requires gap != "" && !Lettered(gap)
    ensures Slug(a + gap + b) ==
              if Lettered(a) && Lettered(b) then Slug(a) + "-" + Slug(b)
              else if Lettered(a) then Slug(a)
              else if Lettered(b) then Slug(b)
              else "provider"
  {
    assert !Letter(gap[0]) && !Letter(gap[|gap| - 1]);
    WordsSplit(a, gap);
    NoWords(gap);
    assert (a + gap)[|a + gap| - 1] == gap[|gap| - 1];
    WordsSplit(a + gap, b);
    if Lettered(a) { SomeWords(a); } else { NoWords(a); }
    if Lettered(b) { SomeWords(b); } else { NoWords(b); }
    hide Words, Join, InWord, Letter, Lettered;
    JoinAppend(Words(a), Words(b), "-");
    assert Words(a) + [] == Words(a) && [] + Words(b) == Words(b);
  }

  /** A name of letters and digits only is its own slug in lower case. */
  lemma {:induction false} SlugSpells(name: string)
    requires name != "" && forall i | 0 <= i < |name| :: Letter(name[i])
    ensures |Slug(name)| == |name| && Words(name) == [Slug(name)]
    ensures forall i | 0 <= i < |name| ::
              var c := name[i];
              Slug(name)[i] == if 'A' <= c <= 'Z' then 'a' + (c - 'A')
                               else if c == '\U{130}' then 'i' else if c == '\U{212A}' then 'k' else c
  {
    var front, c := name[..|name| - 1], name[|name| - 1];
    assert front + [c] == name && InWord(c) && (front != "" ==> Open(front));
    WordsSpelled(front, c);
    SlugOfOne(name);
    hide Words, Slug, InWord, Open;
    if front != "" {
      SlugSpells(front);
      assert Words(name) == [Slug(front) + [Lower(c)]];
    } else {
      assert Words(name) == [[Lower(c)]];
    }
  }

  lemma SlugOfOne(name: string)
    ensures |Words(name)| == 1 ==> Words(name) == [Slug(name)]
  {
  }

  // ---------------------------------------------------------------- unique ids

  datatype Provider = Provider(id: string, name: string, baseURL: string, envVar: string, model: string,
                               supportsTools: Option<bool>, contextWindow: int)

  function Ids(entries: seq<Provider>): set<string> { set p | p in entries :: p.id }

  function Printed(d: seq<int>): string
    requires forall i | 0 <= i < |d| :: 0 <= d[i] < 10
  {
    seq(|d|, i requires 0 <= i < |d| => (48 + d[i]) as char)
  }

  /** The k-th id tried: the base itself, then base-2, base-3 and so on. */
  function Probe(base: string, k: nat): string {
    if k == 0 then base else base + "-" + Printed(Digits(k + 1))
  }

  lemma PrintedInjective(a: seq<int>, b: seq<int>)
    requires forall i | 0 <= i < |a| :: 0 <= a[i] < 10
    requires forall i | 0 <= i < |b| :: 0 <= b[i] < 10
    requires Printed(a) == Printed(b)
    ensures a == b
  {
    forall i | 0 <= i < |a| ensures i < |b| && a[i] == b[i] {
      assert Printed(a)[i] == Printed(b)[i];
    }
    assert |Printed(a)| == |a| && |Printed(b)| == |b|;
  }

  /** Probes are the base itself and then, from 2 on, the base and a dash and a number. */
  lemma ProbeSays(base: string, k: nat) returns (digits: seq<int>)
    ensures if k == 0 then Probe(base, k) == base
            else Value(digits) == k + 1 && digits[0] != 0 && |Probe(base, k)| == |base| + 1 + |digits| &&
                 Probe(base, k)[..|base| + 1] == base + "-" &&
                 forall i | 0 <= i < |digits| :: Probe(base, k)[|base| + 1 + i] as int == '0' as int + digits[i]
  {
    digits := Digits(k + 1);
    ValueOfDigits(k + 1);
    NoLeadingZero(k + 1);
  }

  /** Every probe is a new id. */
  lemma ProbeInjective(base: string, j: nat, k: nat)
    requires Probe(base, j) == Probe(base, k)
    ensures j == k
  {
    if j > 0 && k > 0 {
      var a, b := Printed(Digits(j + 1)), Printed(Digits(k + 1));
      assert (base + "-" + a)[|base| + 1..] == a && (base + "-" + b)[|base| + 1..] == b;
      PrintedInjective(Digits(j + 1), Digits(k + 1));
      DigitsInjective(j + 1, k + 1);
    }
  }

  function Probes(base: string, k: nat): set<string> { set j | 0 <= j < k :: Probe(base, j) }

  lemma {:induction false} ProbeCount(base: string, k: nat)
    ensures |Probes(base, k)| == k
  {
    if k > 0 {
      ProbeCount(base, k - 1);
      forall j | 0 <= j < k - 1 ensures Probe(base, j) != Probe(base, k - 1) {
        if Probe(base, j) == Probe(base, k - 1) { ProbeInjective(base, j, k - 1); }
      }
      hide Probe;
      assert Probes(base, k) == Probes(base, k - 1) + {Probe(base, k - 1)};
    }
  }

  lemma {:induction false} IdCount(entries: seq<Provider>)
    ensures |Ids(entries)| <= |entries|
  {
    if entries != [] {
      var front, last := entries[..|entries| - 1], entries[|entries| - 1];
      assert entries == front + [last];
      IdCount(front);
      assert Ids(entries) == Ids(front) + {last.id};
    }
  }

  /** Pigeonhole: no more probes are taken than there are entries. */
  lemma TakenProbes(entries: seq<Provider>, base: string, k: nat)
    requires forall j | 0 <= j < k :: Probe(base, j) in Ids(entries)
    ensures k <= |entries|
  {
    ProbeCount(base, k);
    IdCount(entries);
    hide Probe, Ids;
    Sets.SubsetSize(Probes(base, k), Ids(entries));
  }

  /** id is the first free probe, found within one probe more than there are entries. */
  ghost predicate FirstFree(entries: seq<Provider>, base: string, id: string) {
    id !in Ids(entries) &&
    exists k: nat :: k <= |entries| && id == Probe(base, k) && forall j | 0 <= j < k :: Probe(base, j) in Ids(entries)
  }

  // ---------------------------------------------------------------- credentials keys

  function EnvChar(c: char): char {
    if 'a' <= c <= 'z' then (c as int - 32) as char else if c == '-' then '_' else c
  }

  function EnvVarFor(id: string): string {
    "CUSTOM_" + seq(|id|, i requires 0 <= i < |id| => EnvChar(id[i])) + "_API_KEY"
  }

  predicate InAlphabet(id: string) { forall i | 0 <= i < |id| :: SlugChar(id[i]) }

  /** CUSTOM_, the id in upper case with dashes as underscores, _API_KEY. */
  lemma EnvVarSpells(id: string)
    ensures var v := EnvVarFor(id);
            |v| == |id| + 15 && "CUSTOM_" <= v && v[|id| + 7..] == "_API_KEY" &&
            forall i | 0 <= i < |id| ::
              v[7 + i] == if 'a' <= id[i] <= 'z' then 'A' + (id[i] - 'a') else if id[i] == '-' then '_' else id[i]
  {
  }

  /** Different ids get different keys. */
  lemma EnvVarInjective(a: string, b: string)
    requires InAlphabet(a) && InAlphabet(b) && EnvVarFor(a) == EnvVarFor(b)
    ensures a == b
  {
    var ea, eb := EnvVarFor(a), EnvVarFor(b);
    assert |ea| == |a| + 15 && |eb| == |b| + 15;
    forall i | 0 <= i < |a| ensures a[i] == b[i] {
      assert ea[7 + i] == EnvChar(a[i]) && eb[7 + i] == EnvChar(b[i]);
      assert SlugChar(a[i]) && SlugChar(b[i]);
    }
  }

  lemma ProbeInAlphabet(base: string, k: nat)
    requires InAlphabet(base)
    ensures InAlphabet(Probe(base, k))
  {
  }

  // ---------------------------------------------------------------- the store

  datatype Error = NameRequired | URLRequired | ModelRequired | SaveFailed

  datatype Result = Ok(provider: Provider) | Err(error: Error)

  /** Ids and keys are pairwise distinct. */
  ghost predicate AllDistinct(entries: seq<Provider>) {
    forall i, j | 0 <= i < j < |entries| ::
      entries[i].id != entries[j].id && entries[i].envVar != entries[j].envVar
  }

  ghost predicate Derived(p: Provider) { InAlphabet(p.id) && p.envVar == EnvVarFor(p.id) }

  ghost predicate Tidy(entries: seq<Provider>) {
    AllDistinct(entries) && forall i | 0 <= i < |entries| :: Derived(entries[i])
  }

  /** Index of the first entry with the id, or the number of entries. */
  function FirstWith(entries: seq<Provider>, id: string): (k: nat)
    ensures k <= |entries| && (forall i | 0 <= i < k :: entries[i].id != id) && (k < |entries| ==> entries[k].id == id)
  {
    if entries == [] || entries[0].id == id then 0 else 1 + FirstWith(entries[1..], id)
  }

  /** The entries without the first one with the id. */
  function Without(entries: seq<Provider>, id: string): seq<Provider> {
    var k := FirstWith(entries, id);
    if k < |entries| then entries[..k] + entries[k + 1..] else entries
  }

  lemma TidyAdd(entries: seq<Provider>, p: Provider)
    requires Tidy(entries) && Derived(p) && p.id !in Ids(entries)
    ensures Tidy(entries + [p])
  {
    forall i | 0 <= i < |entries| ensures entries[i].id != p.id && entries[i].envVar != p.envVar {
      assert entries[i] in entries && Derived(entries[i]);
      hide EnvVarFor;
      if entries[i].envVar == p.envVar { EnvVarInjective(entries[i].id, p.id); }
    }
  }

  lemma TidyWithout(entries: seq<Provider>, id: string)
    requires Tidy(entries)
    ensures Tidy(Without(entries, id)) && id !in Ids(Without(entries, id))
  {
  }

  /** Deleting what was just added restores the list. */
  lemma DeleteUndoesAdd(entries: seq<Provider>, p: Provider)
    requires p.id !in Ids(entries)
    ensures Without(entries + [p], p.id) == entries
  {
    assert forall i | 0 <= i < |entries| :: entries[i] in entries && entries[i].id in Ids(entries);
    assert (entries + [p])[|entries|] == p;
  }

  class Store {
    var entries: seq<Provider>

    constructor ()
      ensures entries == [] && Tidy(entries)
    {
      entries := [];
    }

    /** Registers a provider. A failed save reports an error but keeps the entry in memory. */
    method Add(name: string, baseURL: string, model: string, supportsTools: bool, contextWindow: int, saved: bool)
      returns (r: Result)
      modifies this
      ensures TrimSpace(name) == "" ==> r == Err(NameRequired)
      ensures TrimSpace(name) != "" && TrimSpace(baseURL) == "" ==> r == Err(URLRequired)
      ensures TrimSpace(name) != "" && TrimSpace(baseURL) != "" && TrimSpace(model) == "" ==> r == Err(ModelRequired)
      ensures r.Err? && r.error != SaveFailed ==> entries == old(entries)
      ensures TrimSpace(name) != "" && TrimSpace(baseURL) != "" && TrimSpace(model) != "" ==>
                |entries| == |old(entries)| + 1 &&
                var p := entries[|entries| - 1];
                entries == old(entries) + [p] && FirstFree(old(entries), Slug(TrimSpace(name)), p.id) &&
                p == Provider(p.id, TrimSpace(name), TrimSpace(baseURL), EnvVarFor(p.id), TrimSpace(model),
                              Some(supportsTools), if contextWindow < 0 then 0 else contextWindow) &&
                r == if saved then Ok(p) else Err(SaveFailed)
      ensures Tidy(old(entries)) ==> Tidy(entries)
    {
      hide Tidy, FirstFree, Slug, EnvVarFor, TrimSpace;
      var trimmedName, trimmedURL, trimmedModel := TrimSpace(name), TrimSpace(baseURL), TrimSpace(model);
      if trimmedName == "" {
        return Err(NameRequired);
      }
      if trimmedURL == "" {
        return Err(URLRequired);
      }
      if trimmedModel == "" {
        return Err(ModelRequired);
      }
      var window := contextWindow;
      if window < 0 {
        window := 0;
      }
      var base := Slugify(trimmedName);
      var id := UniqueID(base);
      var p := Provider(id, trimmedName, trimmedURL, EnvVarFor(id), trimmedModel, Some(supportsTools), window);
      FreeIsDerived(entries, trimmedName, p);
      if Tidy(entries) { TidyAdd(entries, p); }
      entries := entries + [p];
      if !saved {
        return Err(SaveFailed);
      }
      return Ok(p);
    }

    /** Removes the first entry with the id; not an error when there is none. */
    method Delete(id: string)
      modifies this
      ensures entries == Without(old(entries), id)
      ensures Tidy(old(entries)) ==> Tidy(entries) && id !in Ids(entries)
    {
      if Tidy(entries) { TidyWithout(entries, id); }
      hide Tidy, Ids;
      for i := 0 to |entries|
        invariant entries == old(entries) && forall k | 0 <= k < i :: entries[k].id != id
      {
        if entries[i].id == id {
          assert FirstWith(entries, id) == i;
          entries := entries[..i] + entries[i + 1..];
          return;
        }
      }
    }

    /** The first free probe. */
    method UniqueID(base: string) returns (id: string)
      ensures FirstFree(entries, base, id)
    {
      id := base;
      var n := 2;
      var taken := IdExists(id);
      TakenProbes(entries, base, 0);
      while taken
        invariant n >= 2 && id == Probe(base, n - 2) && (taken <==> id in Ids(entries))
        invariant n - 2 <= |entries| && forall j | 0 <= j < n - 2 :: Probe(base, j) in Ids(entries)
        decreases |entries| + 2 - n, taken
      {
        TakenProbes(entries, base, n - 1);
        id := base + "-" + Printed(Digits(n));
        taken := IdExists(id);
        n := n + 1;
      }
    }

    method IdExists(id: string) returns (found: bool)
      ensures found <==> id in Ids(entries)
    {
      for i := 0 to |entries|
        invariant forall k | 0 <= k < i :: entries[k].id != id
      {
        if entries[i].id == id {
          return true;
        }
      }
      return false;
    }
  }

  lemma FreeIsDerived(entries: seq<Provider>, name: string, p: Provider)
    requires FirstFree(entries, Slug(name), p.id) && p.envVar == EnvVarFor(p.id)
    ensures Derived(p) && p.id !in Ids(entries)
  {
    SlugShape(name);
    hide Slug, EnvVarFor;
    var k: nat :| k <= |entries| && p.id == Probe(Slug(name), k);
    assert InAlphabet(Slug(name));
    ProbeInAlphabet(Slug(name), k);
  }
}
