/** The keys under which an inventory merges its actions: normal tokens, without order or repetition. */
module SemanticKeys {
  import opened Ordering

  // ----- Tables -----

  function DomainOf(d: string): string {
    if d == "parc" then "parc_intervention"
    else if d == "societe" || d == "compte" then "societe_reglages"
    else if d == "autre" then "contexte"
    else d
  }

  predicate IsStopword(t: string) {
    || t == "un" || t == "une" || t == "le" || t == "la" || t == "les" || t == "de" || t == "du" || t == "des"
    || t == "a" || t == "au" || t == "aux" || t == "en" || t == "et" || t == "ou" || t == "sur" || t == "dans"
    || t == "pour" || t == "par" || t == "avec" || t == "sans" || t == "d" || t == "l"
  }

  function VerbOf(t: string): string {
    if t == "create" || t == "ajouter" || t == "add" || t == "nouvelle" || t == "nouveau" then "creer"
    else if t == "update" || t == "editer" || t == "edit" || t == "changer" || t == "renommer" then "modifier"
    else if t == "delete" || t == "retirer" then "supprimer"
    else if t == "list" then "lister"
    else if t == "voir" || t == "lire" || t == "afficher" then "consulter"
    else if t == "send" then "envoyer"
    else if t == "issue" then "emettre"
    else if t == "naviguer" then "ouvrir"
    else if t == "search" then "rechercher"
    else if t == "record" then "enregistrer"
    else if t == "download" then "telecharger"
    else if t == "export" then "exporter"
    else t
  }

  function ToLower(c: char): char {
    if 'A' <= c <= 'Z' then c + ('a' - 'A') else c
  }

  function LowerCase(s: string): (r: string)
    ensures |r| == |s|
  {
    seq(|s|, i requires 0 <= i < |s| => ToLower(s[i]))
  }

  /** Lower-casing of whole texts, whose rules beyond ASCII are the language's own. */
  type Lowering = string -> string

  /** What is used of it: it is stable, keeps pieces of names pieces, and leaves plain letters and the bar alone. */
  ghost predicate Lawful(lower: Lowering) {
    && (forall s :: lower(lower(s)) == lower(s))
    && (forall s :: IsToken(s) ==> IsToken(lower(s)))
    && (forall s :: IsPlain(s) ==> lower(s) == s)
    && lower("|") == "|"
  }

  /** ASCII lower-casing is one. */
  lemma LowerCaseIsLawful()
    ensures Lawful(LowerCase)
  {
    forall s ensures LowerCase(LowerCase(s)) == LowerCase(s) {}
    forall s | IsToken(s) ensures IsToken(LowerCase(s)) {}
    forall s | IsPlain(s) ensures LowerCase(s) == s {}
  }

  function NormToken(lower: Lowering, t: string): string {
    VerbOf(lower(t))
  }

  predicate IsShortVerb(v: string) {
    v == "creer" || v == "modifier" || v == "lister" || v == "envoyer" || v == "emettre" || v == "ouvrir"
  }

  predicate IsLongVerb(v: string) {
    || v == "supprimer" || v == "consulter" || v == "rechercher" || v == "enregistrer" || v == "telecharger"
    || v == "exporter"
  }

  predicate IsMappedVerb(v: string) {
    IsShortVerb(v) || IsLongVerb(v)
  }

  // ----- The tables, verb by verb -----

  lemma MakingVerbs(t: string)
    ensures VerbOf(t) == "creer" <==> t in {"creer", "create", "ajouter", "add", "nouvelle", "nouveau"}
    ensures VerbOf(t) == "modifier" <==> t in {"modifier", "update", "editer", "edit", "changer", "renommer"}
  {
  }

  lemma RemovingVerbs(t: string)
    ensures VerbOf(t) == "supprimer" <==> t in {"supprimer", "delete", "retirer"}
    ensures VerbOf(t) == "lister" <==> t in {"lister", "list"}
  {
  }

  lemma ShowingVerbs(t: string)
    ensures VerbOf(t) == "consulter" <==> t in {"consulter", "voir", "lire", "afficher"}
    ensures VerbOf(t) == "ouvrir" <==> t in {"ouvrir", "naviguer"}
  {
  }

  lemma SeekingVerbs(t: string)
    ensures VerbOf(t) == "rechercher" <==> t in {"rechercher", "search"}
  {
  }

  lemma SendingVerbs(t: string)
    ensures VerbOf(t) == "envoyer" <==> t in {"envoyer", "send"}
    ensures VerbOf(t) == "emettre" <==> t in {"emettre", "issue"}
  {
  }

  lemma KeepingVerbs(t: string)
    ensures VerbOf(t) == "enregistrer" <==> t in {"enregistrer", "record"}
  {
  }

  lemma DownloadingVerbs(t: string)
    ensures VerbOf(t) == "telecharger" <==> t in {"telecharger", "download"}
  {
  }

  lemma ExportingVerbs(t: string)
    ensures VerbOf(t) == "exporter" <==> t in {"exporter", "export"}
  {
  }

  lemma OtherWordsStay(t: string)
    ensures VerbOf(t) == t || IsMappedVerb(VerbOf(t))
  {
  }

  /** Domains that have another name; the rest keep theirs. */
  lemma DomainTable(d: string)
    ensures DomainOf(d) == "parc_intervention" <==> d in {"parc", "parc_intervention"}
    ensures DomainOf(d) == "societe_reglages" <==> d in {"societe", "compte", "societe_reglages"}
    ensures DomainOf(d) == "contexte" <==> d in {"autre", "contexte"}
    ensures DomainOf(d) == d || DomainOf(d) in {"parc_intervention", "societe_reglages", "contexte"}
  {
  }

  /** Which words become which verb, after lower-casing; every other word is its own. */
  lemma VerbTable(lower: Lowering, t: string)
    ensures NormToken(lower, t) == "creer" <==> lower(t) in {"creer", "create", "ajouter", "add", "nouvelle", "nouveau"}
    ensures NormToken(lower, t) == "modifier" <==> lower(t) in {"modifier", "update", "editer", "edit", "changer", "renommer"}
    ensures NormToken(lower, t) == "supprimer" <==> lower(t) in {"supprimer", "delete", "retirer"}
    ensures NormToken(lower, t) == "lister" <==> lower(t) in {"lister", "list"}
    ensures NormToken(lower, t) == "consulter" <==> lower(t) in {"consulter", "voir", "lire", "afficher"}
    ensures NormToken(lower, t) == "ouvrir" <==> lower(t) in {"ouvrir", "naviguer"}
    ensures NormToken(lower, t) == "rechercher" <==> lower(t) in {"rechercher", "search"}
    ensures NormToken(lower, t) == "envoyer" <==> lower(t) in {"envoyer", "send"}
    ensures NormToken(lower, t) == "emettre" <==> lower(t) in {"emettre", "issue"}
    ensures NormToken(lower, t) == "enregistrer" <==> lower(t) in {"enregistrer", "record"}
    ensures NormToken(lower, t) == "telecharger" <==> lower(t) in {"telecharger", "download"}
    ensures NormToken(lower, t) == "exporter" <==> lower(t) in {"exporter", "export"}
    ensures NormToken(lower, t) == lower(t) || IsMappedVerb(NormToken(lower, t))
  {
    MakingVerbs(lower(t));
    RemovingVerbs(lower(t));
    ShowingVerbs(lower(t));
    SeekingVerbs(lower(t));
    SendingVerbs(lower(t));
    KeepingVerbs(lower(t));
    DownloadingVerbs(lower(t));
    ExportingVerbs(lower(t));
    OtherWordsStay(lower(t));
  }

  // ----- Keys -----

  predicate IsSeparator(c: char) {
    c == '-' || c == '_' || c == ' ' || c == '/'
  }

  /** The text before the first separator, then the pieces after it. */
  function Split(s: string): (r: seq<string>)
    ensures r != []
  {
    if s == [] then [""]
    else if IsSeparator(s[0]) then [""] + Split(s[1..])
    else
      var rest := Split(s[1..]);
      [[s[0]] + rest[0]] + rest[1..]
  }

  function Kept(lower: Lowering, pieces: seq<string>): seq<string> {
    if pieces == [] then []
    else (if pieces[0] != "" && !IsStopword(pieces[0]) then [NormToken(lower, pieces[0])] else []) + Kept(lower, pieces[1..])
  }

  function Tokens(lower: Lowering, id: string): seq<string> {
    Kept(lower, Split(id))
  }

  function Distinct(tokens: seq<string>): (r: seq<string>)
    ensures forall t :: t in r <==> t in tokens
  {
    if tokens == [] then []
    else if tokens[0] in tokens[1..] then Distinct(tokens[1..])
    else [tokens[0]] + Distinct(tokens[1..])
  }

  function SortedSet(tokens: seq<string>): seq<string> {
    Sort(Distinct(tokens), Before)
  }

  function JoinDash(tokens: seq<string>): string {
    if tokens == [] then "" else if |tokens| == 1 then tokens[0] else tokens[0] + "-" + JoinDash(tokens[1..])
  }

  function Words(lower: Lowering, id: string): seq<string> {
    SortedSet(Tokens(lower, id))
  }

  function SemanticKey(lower: Lowering, domain: string, id: string): string {
    DomainOf(domain) + "|" + JoinDash(Words(lower, id))
  }

  predicate IsToken(t: string) {
    t != "" && forall i :: 0 <= i < |t| ==> !IsSeparator(t[i])
  }

  predicate AreTokens(tokens: seq<string>) {
    forall i :: 0 <= i < |tokens| ==> IsToken(tokens[i])
  }

  // ----- Normal tokens -----

  lemma ShortVerbIsFixed(v: string)
    requires IsShortVerb(v)
    ensures VerbOf(v) == v
  {
  }

  lemma LongVerbIsFixed(v: string)
    requires IsLongVerb(v)
    ensures VerbOf(v) == v
  {
  }

  predicate IsPlain(v: string) {
    v != "" && forall i :: 0 <= i < |v| ==> 'a' <= v[i] <= 'z'
  }

  lemma ShortVerbIsPlain(v: string)
    requires IsShortVerb(v)
    ensures IsPlain(v)
  {
  }

  lemma PlainIsToken(v: string)
    requires IsPlain(v)
    ensures IsToken(v)
  {
  }

  lemma MappedVerbIsNormal(v: string)
    requires IsMappedVerb(v)
    ensures VerbOf(v) == v && IsPlain(v) && IsToken(v)
  {
    if IsShortVerb(v) {
      ShortVerbIsFixed(v);
      ShortVerbIsPlain(v);
    } else {
      LongVerbIsFixed(v);
    }
    PlainIsToken(v);
  }

  /** Normalising twice changes nothing, and never introduces a separator. */
  lemma NormTokenIsStable(lower: Lowering, t: string)
    requires Lawful(lower)
    ensures NormToken(lower, NormToken(lower, t)) == NormToken(lower, t)
    ensures IsToken(t) ==> IsToken(NormToken(lower, t))
  {
    var low := lower(t);
    if VerbOf(low) == low {
      assert lower(low) == low;
    } else {
      MappedVerbIsNormal(VerbOf(low));
    }
  }

  lemma {:induction false} SplitGivesPieces(s: string)
    ensures forall i :: 0 <= i < |Split(s)| ==> Split(s)[i] == "" || IsToken(Split(s)[i])
  {
    if s != [] { SplitGivesPieces(s[1..]); }
  }

  lemma {:induction false} KeptAreTokens(lower: Lowering, pieces: seq<string>)
    requires Lawful(lower)
    requires forall i :: 0 <= i < |pieces| ==> pieces[i] == "" || IsToken(pieces[i])
    ensures AreTokens(Kept(lower, pieces))
    ensures forall t :: t in Kept(lower, pieces) ==> NormToken(lower, t) == t
  {
    if pieces != [] {
      NormTokenIsStable(lower, pieces[0]);
      KeptAreTokens(lower, pieces[1..]);
    }
  }

  lemma {:induction false} DistinctCounts(tokens: seq<string>, t: string)
    ensures multiset(Distinct(tokens))[t] == if t in tokens then 1 else 0
  {
    if tokens != [] { DistinctCounts(tokens[1..], t); }
  }

  /** A sorted set depends on the tokens present only, and shows them all. */
  lemma SortedSetIsSet(a: seq<string>, b: seq<string>)
    ensures SortedSet(a) == SortedSet(b) <==> forall t :: t in a <==> t in b
  {
    SameStringSetIsMultisetEquality(Distinct(a), Distinct(b));
    SortKeepsElements(Distinct(a), Before);
    SortKeepsElements(Distinct(b), Before);
    if forall t :: t in a <==> t in b {
      forall t ensures multiset(Distinct(a))[t] == multiset(Distinct(b))[t] {
        DistinctCounts(a, t);
        DistinctCounts(b, t);
      }
      assert multiset(Distinct(a)) == multiset(Distinct(b));
      assert SortedSet(a) == SortedSet(b);
    }
    if SortedSet(a) == SortedSet(b) {
      SameElements(Distinct(a), Distinct(b));
    }
  }

  lemma SortedSetElements(tokens: seq<string>)
    ensures forall t :: t in SortedSet(tokens) <==> t in tokens
  {
    SortKeepsElements(Distinct(tokens), Before);
    SameElements(SortedSet(tokens), Distinct(tokens));
  }

  lemma WordsAreTokens(lower: Lowering, id: string)
    requires Lawful(lower)
    ensures AreTokens(Words(lower, id))
    ensures forall t :: t in Words(lower, id) <==> t in Tokens(lower, id)
    ensures forall t :: t in Words(lower, id) ==> NormToken(lower, t) == t
  {
    SplitGivesPieces(id);
    KeptAreTokens(lower, Split(id));
    SortedSetElements(Tokens(lower, id));
    forall i | 0 <= i < |Words(lower, id)| ensures IsToken(Words(lower, id)[i]) { assert Words(lower, id)[i] in Tokens(lower, id); }
  }

  // ----- Splitting what was joined -----

  lemma {:induction false} SplitToken(t: string, rest: string)
    requires forall i :: 0 <= i < |t| ==> !IsSeparator(t[i])
    ensures Split(t + "-" + rest) == [t] + Split(rest)
    ensures Split(t) == [t]
  {
    if t == [] {
      assert (t + "-" + rest)[1..] == rest;
    } else {
      SplitToken(t[1..], rest);
      assert (t + "-" + rest)[1..] == t[1..] + "-" + rest;
      assert t == [t[0]] + t[1..];
    }
  }

  lemma {:induction false} SplitJoined(tokens: seq<string>)
    requires AreTokens(tokens) && tokens != []
    ensures Split(JoinDash(tokens)) == tokens
  {
    SplitToken(tokens[0], JoinDash(tokens[1..]));
    if |tokens| > 1 { SplitJoined(tokens[1..]); }
  }

  lemma JoinedIsInjective(a: seq<string>, b: seq<string>)
    requires AreTokens(a) && AreTokens(b) && JoinDash(a) == JoinDash(b)
    ensures a == b
  {
    if a != [] { SplitJoined(a); }
    if b != [] { SplitJoined(b); }
  }

  /** One domain continues past the separator of the other's key, and the rest makes up for it. */
  predicate Straddles(d: string, x: string, e: string, y: string) {
    |d| < |e| && e[..|d|] == d && e[|d|] == '|' && x == e[|d| + 1..] + "|" + y
  }

  lemma SameSplit(d: string, e: string, x: string, y: string)
    requires d + "|" + x == e + "|" + y && |d| <= |e|
    ensures (d == e && x == y) || Straddles(d, x, e, y)
  {
    var s, t := d + "|" + x, e + "|" + y;
    assert s[..|d|] == d && t[..|d|] == e[..|d|];
    assert s[|d|] == '|' && s[|d| + 1..] == x;
    if |d| == |e| {
      assert e[..|d|] == e && t[|e| + 1..] == y;
    } else {
      assert t[|d|] == e[|d|];
      assert t[|d| + 1..] == e[|d| + 1..] + "|" + y;
    }
  }

  lemma StraddlingKeys(d: string, x: string, e: string, y: string)
    requires Straddles(d, x, e, y)
    ensures d + "|" + x == e + "|" + y
  {
    assert e == d + "|" + e[|d| + 1..];
  }

  predicate SameTokens(lower: Lowering, id: string, id': string) {
    forall t :: t in Tokens(lower, id) + Tokens(lower, id') ==> t in Tokens(lower, id) && t in Tokens(lower, id')
  }

  /**
   Keys agree exactly when the domains do and the same normal tokens occur, in any order, any
   number of times, or when a domain holds the separator and reaches into the other's tokens.
   */
  lemma KeysAgree(lower: Lowering, domain: string, id: string, domain': string, id': string)
    requires Lawful(lower)
    ensures SemanticKey(lower, domain, id) == SemanticKey(lower, domain', id') <==>
            || (DomainOf(domain) == DomainOf(domain') && SameTokens(lower, id, id'))
            || Straddles(DomainOf(domain), JoinDash(Words(lower, id)), DomainOf(domain'), JoinDash(Words(lower, id')))
            || Straddles(DomainOf(domain'), JoinDash(Words(lower, id')), DomainOf(domain), JoinDash(Words(lower, id)))
  {
    var d, x, e, y := DomainOf(domain), JoinDash(Words(lower, id)), DomainOf(domain'), JoinDash(Words(lower, id'));
    SortedSetIsSet(Tokens(lower, id), Tokens(lower, id'));
    if Straddles(d, x, e, y) { StraddlingKeys(d, x, e, y); }
    if Straddles(e, y, d, x) { StraddlingKeys(e, y, d, x); }
    if d + "|" + x == e + "|" + y {
      if |d| <= |e| { SameSplit(d, e, x, y); } else { SameSplit(e, d, y, x); }
      if d == e && x == y {
        WordsAreTokens(lower, id);
        WordsAreTokens(lower, id');
        JoinedIsInjective(Words(lower, id), Words(lower, id'));
      }
    }
  }

  predicate Over(alphabet: set<char>, s: string) {
    forall i :: 0 <= i < |s| ==> s[i] in alphabet
  }

  /** Among domains and names over the alphabet, keys agree exactly for equal domains and tokens. */
  ghost predicate KeysAreExact(lower: Lowering, alphabet: set<char>) {
    forall d, id, d', id' :: Over(alphabet, d) && Over(alphabet, id) && Over(alphabet, d') && Over(alphabet, id') ==>
      (SemanticKey(lower, d, id) == SemanticKey(lower, d', id') <==>
       DomainOf(d) == DomainOf(d') && SameTokens(lower, id, id'))
  }

  lemma DomainKeepsBars(d: string)
    ensures '|' in DomainOf(d) ==> '|' in d
  {
  }

  /** The separator is not escaped, so it is the one character that domains cannot take. */
  lemma KeysNeedNoBar(lower: Lowering, alphabet: set<char>)
    requires Lawful(lower)
    ensures KeysAreExact(lower, alphabet) <==> '|' !in alphabet
  {
    if '|' in alphabet {
      BarCollides(lower);
      assert Over(alphabet, "|") && Over(alphabet, "");
    } else {
      forall d, id, d', id' | Over(alphabet, d) && Over(alphabet, id) && Over(alphabet, d') && Over(alphabet, id')
        ensures SemanticKey(lower, d, id) == SemanticKey(lower, d', id') <==>
                DomainOf(d) == DomainOf(d') && SameTokens(lower, id, id')
      {
        KeysAgree(lower, d, id, d', id');
        DomainKeepsBars(d);
        DomainKeepsBars(d');
      }
    }
  }

  lemma BarCollides(lower: Lowering)
    requires Lawful(lower)
    ensures SemanticKey(lower, "|", "") == SemanticKey(lower, "", "|") && DomainOf("|") != DomainOf("")
  {
    assert Split("") == [""] && Kept(lower, []) == [];
    SplitToken("|", "");
    assert Tokens(lower, "") == [];
    assert Tokens(lower, "|") == ["|"];
    assert Words(lower, "|") == ["|"] by { assert Distinct(["|"]) == ["|"]; }
    assert Words(lower, "") == [];
  }

  lemma {:induction false} KeptOfNormal(lower: Lowering, tokens: seq<string>, t: string)
    requires AreTokens(tokens) && forall u :: u in tokens ==> NormToken(lower, u) == u
    ensures t in Kept(lower, tokens) <==> t in tokens && !IsStopword(t)
  {
    if tokens != [] { KeptOfNormal(lower, tokens[1..], t); }
  }

  lemma DomainIsStable(d: string)
    ensures DomainOf(DomainOf(d)) == DomainOf(d)
  {
  }

  lemma TokensOfJoined(lower: Lowering, words: seq<string>)
    requires AreTokens(words) && forall u :: u in words ==> NormToken(lower, u) == u
    ensures forall t :: t in Tokens(lower, JoinDash(words)) <==> t in words && !IsStopword(t)
  {
    if words == [] {
      assert Split("") == [""];
      assert Kept(lower, [""]) == [];
    } else {
      SplitJoined(words);
    }
    forall t ensures t in Tokens(lower, JoinDash(words)) <==> t in words && !IsStopword(t) {
      if words != [] { KeptOfNormal(lower, words, t); }
    }
  }

  /**
   A key normalises to itself exactly when no normal token is a stopword. Stopwords are dropped
   before lower-casing, so an upper-case one survives the first time and not the second.
   */
  lemma KeyIsStable(lower: Lowering, domain: string, id: string)
    requires Lawful(lower)
    ensures SemanticKey(lower, DomainOf(domain), JoinDash(Words(lower, id))) == SemanticKey(lower, domain, id) <==>
            forall t :: t in Tokens(lower, id) ==> !IsStopword(t)
  {
    DomainIsStable(domain);
    WordsAreTokens(lower, id);
    TokensOfJoined(lower, Words(lower, id));
    var again := JoinDash(Words(lower, id));
    WordsAreTokens(lower, again);
    SortedSetIsSet(Tokens(lower, again), Tokens(lower, id));
    if SemanticKey(lower, DomainOf(domain), again) == SemanticKey(lower, domain, id) {
      SameTail(DomainOf(domain) + "|", JoinDash(Words(lower, again)), JoinDash(Words(lower, id)));
      JoinedIsInjective(Words(lower, again), Words(lower, id));
    }
  }

  lemma SameTail(p: string, x: string, y: string)
    requires p + x == p + y
    ensures x == y
  {
    assert (p + x)[|p|..] == x && (p + y)[|p|..] == y;
  }

  lemma UpperCaseToken(lower: Lowering)
    requires lower("LE") == "le"
    ensures Tokens(lower, "LE") == ["le"]
  {
    SplitToken("LE", "");
    assert VerbOf("le") == "le";
    assert Kept(lower, []) == [];
  }

  /** For instance the article "LE": kept as a token, dropped when the key is normalised again. */
  lemma UpperCaseStopwordIsKept(lower: Lowering, domain: string)
    requires Lawful(lower) && lower("LE") == "le"
    ensures Tokens(lower, "LE") == ["le"]
    ensures SemanticKey(lower, DomainOf(domain), JoinDash(Words(lower, "LE"))) != SemanticKey(lower, domain, "LE")
  {
    UpperCaseToken(lower);
    KeyIsStable(lower, domain, "LE");
    assert "le" in Tokens(lower, "LE") && IsStopword("le");
  }
}
