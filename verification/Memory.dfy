/** Durable memories: text normalisation in Rust and in SQL, de-duplication, promotion, forgetting. */
module Memory {
  import opened Prelude
  import opened Text
  import Like

  datatype MemoryKind = Fact | Preference | Payday | Goal | Person | Other

  datatype MemoryRow = MemoryRow(user: Id, content: string, kind: MemoryKind)

  const CONTENT_MAX: nat := 4000

  // ---------------------------------------------------------------- the Rust normaliser

  /** `str::split` on every non-alphanumeric character. */
  function Split(s: string): (r: seq<string>)
    ensures |r| > 0
  {
    if s == "" then [""]
    else
      var rest := Split(s[1..]);
      if IsAlnum(s[0]) then [[s[0]] + rest[0]] + rest[1..] else [""] + rest
  }

  function NonEmpty(parts: seq<string>): seq<string> {
    if parts == [] then []
    else (if parts[0] == "" then [] else [parts[0]]) + NonEmpty(parts[1..])
  }

  function JoinSpace(parts: seq<string>): string {
    if parts == [] then ""
    else if |parts| == 1 then parts[0]
    else parts[0] + " " + JoinSpace(parts[1..])
  }

  function NormalizeContent(content: string): string {
    JoinSpace(NonEmpty(Split(Lower(content))))
  }

  function CompactContent(content: string): string {
    Replace(NormalizeContent(content), " ", "")
  }

  // ---------------------------------------------------------------- the SQL normaliser

  /** `regexp_replace(s, '[^[:alnum:]]+', ' ', 'g')`: the last character of a run yields its space. */
  function CollapseRuns(s: string): string {
    if s == "" then ""
    else if IsAlnum(s[0]) then [s[0]] + CollapseRuns(s[1..])
    else if |s| > 1 && !IsAlnum(s[1]) then CollapseRuns(s[1..])
    else " " + CollapseRuns(s[1..])
  }

  function DropLeadingSpaces(s: string): string {
    if s != "" && s[0] == ' ' then DropLeadingSpaces(s[1..]) else s
  }

  function DropTrailingSpaces(s: string): string {
    if s != "" && s[|s| - 1] == ' ' then DropTrailingSpaces(s[..|s| - 1]) else s
  }

  /** `lower(btrim(regexp_replace(...)))` */
  function SqlNormalize(content: string): string {
    Lower(DropLeadingSpaces(DropTrailingSpaces(CollapseRuns(content))))
  }

  /** `regexp_replace(..., '\s+', '', 'g')` */
  function StripSpaces(s: string): string {
    if s == "" then ""
    else (if IsSpace(s[0]) then "" else [s[0]]) + StripSpaces(s[1..])
  }

  function SqlCompact(content: string): string {
    StripSpaces(SqlNormalize(content))
  }

  // ---------------------------------------------------------------- both compute the same words

  /** The words of `s`, single-spaced: what both normalisers mean before lower-casing. */
  function Words(s: string): string {
    if s == "" then ""
    else
      var rest := Words(s[1..]);
      if !IsAlnum(s[0]) then rest
      else if rest == "" || IsAlnum(s[1]) then [s[0]] + rest
      else [s[0], ' '] + rest
  }

  function OnlyAlnum(s: string): string {
    if s == "" then ""
    else (if IsAlnum(s[0]) then [s[0]] else "") + OnlyAlnum(s[1..])
  }

  lemma {:induction false} JoinIsEmptyOnlyForNothing(parts: seq<string>)
    requires parts != [] && forall p :: p in parts ==> p != ""
    ensures JoinSpace(parts) != ""
  {
    assert parts[0] in parts;
  }

  lemma {:induction false} NonEmptyHasNoEmpty(parts: seq<string>)
    ensures forall p :: p in NonEmpty(parts) ==> p != ""
  {
    if parts != [] {
      NonEmptyHasNoEmpty(parts[1..]);
    }
  }

  lemma JoinCons(first: string, more: seq<string>)
    ensures JoinSpace([first] + more) == first + if more == [] then "" else " " + JoinSpace(more)
  {
    assert ([first] + more)[1..] == more;
  }

  lemma NonEmptyCons(first: string, more: seq<string>)
    ensures NonEmpty([first] + more) == (if first == "" then [] else [first]) + NonEmpty(more)
  {
    assert ([first] + more)[1..] == more;
  }

  /** What joining gives for a word in front of others. */
  lemma JoinWord(word: string, parts: seq<string>)
    ensures var rest := JoinSpace(NonEmpty(parts));
            JoinSpace(NonEmpty([word] + parts))
            == if word == "" then rest else if rest == "" then word else word + " " + rest
  {
    var more := NonEmpty(parts);
    NonEmptyCons(word, parts);
    NonEmptyHasNoEmpty(parts);
    if more != [] {
      JoinIsEmptyOnlyForNothing(more);
    }
    assert more == [] ==> JoinSpace(more) == "";
    JoinCons(word, more);
    hide JoinSpace, NonEmpty;
    assert word == "" ==> [] + more == more;
    assert word + "" == word && word + (" " + JoinSpace(more)) == word + " " + JoinSpace(more);
  }

  /** One more letter in front of a split text, and what that does to the joined words. */
  lemma LetterBeforeWords(c: char, word: string, parts: seq<string>)
    ensures var rest := JoinSpace(NonEmpty([word] + parts));
            JoinSpace(NonEmpty([[c] + word] + parts))
            == if rest == "" || word != "" then [c] + rest else [c, ' '] + rest
  {
    hide JoinSpace, NonEmpty;
    JoinWord(word, parts);
    JoinWord([c] + word, parts);
    var tail := JoinSpace(NonEmpty(parts));
    assert word == "" ==> [c] + word == [c] && [c] + " " + tail == [c, ' '] + tail;
    assert [c] + word + " " + tail == [c] + (word + " " + tail);
  }

  lemma {:induction false} SplitJoinIsWords(s: string)
    ensures JoinSpace(NonEmpty(Split(s))) == Words(s)
    ensures s != "" && IsAlnum(s[0]) ==> Split(s)[0] != ""
    ensures s == "" || !IsAlnum(s[0]) ==> Split(s)[0] == ""
  {
    if s != "" {
      var parts := Split(s[1..]);
      SplitJoinIsWords(s[1..]);
      if IsAlnum(s[0]) {
        assert parts == [parts[0]] + parts[1..];
        LetterBeforeWords(s[0], parts[0], parts[1..]);
        assert |s| > 1 ==> s[1..][0] == s[1];
      } else {
        NonEmptyCons("", parts);
        assert [] + NonEmpty(parts) == NonEmpty(parts);
      }
    }
  }

  lemma {:induction false} WordsEdges(s: string)
    ensures var w := Words(s); w != "" ==> IsAlnum(w[0]) && IsAlnum(w[|w| - 1])
    ensures s != "" && IsAlnum(s[0]) ==> Words(s) != ""
  {
    if s != "" {
      WordsEdges(s[1..]);
    }
  }

  /** Collapsing is the words with at most one space on each side. */
  lemma {:induction false} CollapseIsPaddedWords(s: string)
    ensures CollapseRuns(s) == Lead(s) + Words(s) || (Words(s) != "" && CollapseRuns(s) == Lead(s) + Words(s) + " ")
  {
    if s != "" {
      var t, c := s[1..], s[0];
      CollapseStep(s);
      WordsStep(s);
      WordsEdges(t);
      hide CollapseRuns, Words;
      CollapseIsPaddedWords(t);
      PaddedStep(c, t, CollapseRuns(t), Words(t));
    }
  }

  lemma CollapseStep(s: string)
    requires s != ""
    ensures CollapseRuns(s)
            == if IsAlnum(s[0]) then [s[0]] + CollapseRuns(s[1..])
               else if s[1..] != "" && Lead(s[1..]) != "" then CollapseRuns(s[1..])
               else " " + CollapseRuns(s[1..])
  {
    assert |s| > 1 ==> s[1..][0] == s[1];
  }

  lemma WordsStep(s: string)
    requires s != ""
    ensures var rest := Words(s[1..]);
            Words(s) == if !IsAlnum(s[0]) then rest
                        else if rest == "" || Lead(s[1..]) == "" then [s[0]] + rest
                        else [s[0], ' '] + rest
  {
    WordsEdges(s[1..]);
    assert |s| > 1 ==> s[1..][0] == s[1];
  }

  /** The step on texts alone: `run` is the collapsed rest and `w` its words. */
  lemma PaddedStep(c: char, t: string, run: string, w: string)
    requires run == Lead(t) + w || (w != "" && run == Lead(t) + w + " ")
    requires t != "" && IsAlnum(t[0]) ==> w != ""
    requires t == "" ==> run == "" && w == ""
    ensures var run' := if IsAlnum(c) then [c] + run else if t != "" && Lead(t) != "" then run else " " + run;
            var w' := if !IsAlnum(c) then w else if w == "" || Lead(t) == "" then [c] + w else [c, ' '] + w;
            var lead := if IsAlnum(c) then "" else " ";
            run' == lead + w' || (w' != "" && run' == lead + w' + " ")
  {
    if run == Lead(t) + w {
      assert run == Lead(t) + w + "";
      Prepend(c, Lead(t), w, "");
    } else {
      Prepend(c, Lead(t), w, " ");
    }
  }

  lemma Prepend(c: char, lead: string, w: string, pad: string)
    ensures [c] + ("" + w + pad) == "" + ([c] + w) + pad && " " + ("" + w + pad) == " " + w + pad
    ensures [c] + (" " + w + pad) == "" + ([c, ' '] + w) + pad
    ensures [c] + (" " + "" + "") == "" + ([c] + "") + " "
  {
  }

  function Lead(s: string): string {
    if s != "" && !IsAlnum(s[0]) then " " else ""
  }

  lemma TrimmedCollapse(s: string)
    ensures DropLeadingSpaces(DropTrailingSpaces(CollapseRuns(s))) == Words(s)
  {
    CollapseIsPaddedWords(s);
    WordsEdges(s);
    hide CollapseRuns, Words;
    var c, w := CollapseRuns(s), Words(s);
    var core := Lead(s) + w;
    assert (core + " ")[..|core|] == core;
    if w == "" {
      assert core == "" || core[..0] == "";
      assert DropTrailingSpaces("") == "";
    } else {
      assert core[|core| - 1] == w[|w| - 1];
      assert DropTrailingSpaces(core) == core;
      assert Lead(s) == " " ==> core[1..] == w;
      assert DropLeadingSpaces(w) == w;
    }
  }

  lemma {:induction false} LowerWords(s: string)
    ensures Lower(Words(s)) == Words(Lower(s))
  {
    if s != "" {
      LowerWords(s[1..]);
      assert Lower(s)[1..] == Lower(s[1..]);
      var rest := Words(s[1..]);
      assert Lower([s[0]] + rest) == [LowerChar(s[0])] + Lower(rest);
      assert Lower([s[0], ' '] + rest) == [LowerChar(s[0]), ' '] + Lower(rest);
    }
  }

  lemma {:induction false} StripWords(s: string)
    ensures StripSpaces(Words(s)) == OnlyAlnum(s)
  {
    if s != "" {
      StripWords(s[1..]);
      var rest := Words(s[1..]);
      assert ([s[0]] + rest)[1..] == rest;
      assert ([s[0], ' '] + rest)[1..] == " " + rest && (" " + rest)[1..] == rest;
    }
  }

  lemma {:induction false} RemovingSpaceIsStripping(s: string)
    requires forall c :: c in s && IsSpace(c) ==> c == ' '
    ensures Replace(s, " ", "") == StripSpaces(s)
  {
    if s != "" {
      assert s[0] in s;
      RemovingSpaceIsStripping(s[1..]);
    }
  }

  lemma {:induction false} WordsHaveOnlyBlanks(s: string)
    ensures forall c :: c in Words(s) && IsSpace(c) ==> c == ' '
  {
    if s != "" {
      WordsHaveOnlyBlanks(s[1..]);
    }
  }

  /** The duplicate check compares a Rust-normalised text with SQL-normalised rows: on ASCII text
      the two sides of that comparison are the same function, and the compact form is the
      lower-cased letters and digits of the text in order. */
  lemma NormalizersAgree(content: string)
    ensures NormalizeContent(content) == SqlNormalize(content)
    ensures CompactContent(content) == SqlCompact(content) == OnlyAlnum(Lower(content))
  {
    SplitJoinIsWords(Lower(content));
    TrimmedCollapse(content);
    LowerWords(content);
    WordsHaveOnlyBlanks(Lower(content));
    RemovingSpaceIsStripping(NormalizeContent(content));
    StripWords(Lower(content));
  }

  // ---------------------------------------------------------------- the store

  function Rank(kind: MemoryKind): nat {
    match kind
    case Payday => 0
    case Fact => 1
    case Preference => 1
    case Goal => 2
    case _ => 3
  }

  predicate ShouldPromote(current: MemoryKind, next: MemoryKind) {
    Rank(next) < Rank(current)
  }

  predicate SameFact(row: MemoryRow, user: Id, normalized: string, compact: string) {
    row.user == user
    && (SqlNormalize(row.content) == normalized || SqlCompact(row.content) == compact)
  }

  predicate LikeFact(row: MemoryRow, user: Id, normalized: string, compact: string) {
    row.user == user
    && (Like.Matches("%" + Like.EscapeLike(normalized) + "%", SqlNormalize(row.content))
        || Like.Matches("%" + Like.EscapeLike(compact) + "%", SqlCompact(row.content)))
  }

  /** The newest row below `n` holding the same fact. */
  function FindSame(m: map<Id, MemoryRow>, user: Id, normalized: string, compact: string, n: Id): (r: Option<Id>)
    ensures r.Some? ==> r.value < n && r.value in m && SameFact(m[r.value], user, normalized, compact)
    ensures r.None? ==> forall i :: i in m && i < n ==> !SameFact(m[i], user, normalized, compact)
  {
    if n == 0 then None
    else if n - 1 in m && SameFact(m[n - 1], user, normalized, compact) then Some(n - 1)
    else FindSame(m, user, normalized, compact, n - 1)
  }

  function FindLike(m: map<Id, MemoryRow>, user: Id, normalized: string, compact: string, n: Id): (r: Option<Id>)
    ensures r.Some? ==> r.value < n && r.value in m && LikeFact(m[r.value], user, normalized, compact)
    ensures r.None? ==> forall i :: i in m && i < n ==> !LikeFact(m[i], user, normalized, compact)
  {
    if n == 0 then None
    else if n - 1 in m && LikeFact(m[n - 1], user, normalized, compact) then Some(n - 1)
    else FindLike(m, user, normalized, compact, n - 1)
  }

  /** The rows and the next free id. */
  datatype Store = Store(rows: map<Id, MemoryRow>, nextId: Id) {
    ghost predicate Valid() {
      forall i :: i in rows ==> i < nextId
    }

    function Save(user: Id, content: string, kind: MemoryKind): Store {
      var trimmed := Truncate(Trim(content), CONTENT_MAX);
      var compact := CompactContent(trimmed);
      if trimmed == "" || compact == "" then this
      else
        match FindSame(rows, user, NormalizeContent(trimmed), compact, nextId)
        case Some(id) =>
          if ShouldPromote(rows[id].kind, kind) then this.(rows := rows[id := rows[id].(kind := kind)]) else this
        case None =>
          Store(rows[nextId := MemoryRow(user, trimmed, kind)], nextId + 1)
    }

    function Target(user: Id, query: string): Option<Id> {
      var q := Trim(query);
      var normalized, compact := NormalizeContent(q), CompactContent(q);
      if q == "" || compact == "" then None
      else
        match FindSame(rows, user, normalized, compact, nextId)
        case Some(id) => Some(id)
        case None => FindLike(rows, user, normalized, compact, nextId)
    }

    function Forget(user: Id, query: string): Store {
      match Target(user, query)
      case Some(id) => this.(rows := rows - {id})
      case None => this
    }
  }

  /** The identity of a fact: two texts are the same fact when their letters and digits agree. */
  function Fact(content: string): string {
    OnlyAlnum(Lower(content))
  }

  /** What Save stores of a text, and so what its fact is. */
  function SavedText(content: string): string {
    Truncate(Trim(content), CONTENT_MAX)
  }

  lemma SameFactIsFact(row: MemoryRow, user: Id, text: string)
    ensures SameFact(row, user, NormalizeContent(text), CompactContent(text))
            <==> row.user == user && Fact(row.content) == Fact(text)
  {
    NormalizersAgree(row.content);
    NormalizersAgree(text);
  }

  /** No two rows of a user hold the same fact, and every row holds one. */
  ghost predicate Distinct(s: Store) {
    && s.Valid()
    && (forall i :: i in s.rows ==> Fact(s.rows[i].content) != "")
    && (forall i, j :: i in s.rows && j in s.rows && i != j && s.rows[i].user == s.rows[j].user
          ==> Fact(s.rows[i].content) != Fact(s.rows[j].content))
  }

  /** The whole meaning of a save: it adds the fact if the user lacks it, and otherwise only ever
      strengthens the kind of the one row that holds it. */
  lemma SaveMeaning(s: Store, user: Id, content: string, kind: MemoryKind)
    requires s.Valid()
    ensures var t := s.Save(user, content, kind);
            var fact := Fact(SavedText(content));
            if fact == "" then t == s
            else if exists i :: i in s.rows && s.rows[i].user == user && Fact(s.rows[i].content) == fact then
              exists i :: i in s.rows && s.rows[i].user == user && Fact(s.rows[i].content) == fact
                && t == s.(rows := s.rows[i := s.rows[i].(kind := t.rows[i].kind)])
                && Rank(t.rows[i].kind) == Min(Rank(s.rows[i].kind), Rank(kind))
            else t == Store(s.rows[s.nextId := MemoryRow(user, SavedText(content), kind)], s.nextId + 1)
  {
    var trimmed := SavedText(content);
    NormalizersAgree(trimmed);
    var found := FindSame(s.rows, user, NormalizeContent(trimmed), CompactContent(trimmed), s.nextId);
    forall i | i in s.rows
      ensures SameFact(s.rows[i], user, NormalizeContent(trimmed), CompactContent(trimmed))
              <==> s.rows[i].user == user && Fact(s.rows[i].content) == Fact(trimmed)
    {
      SameFactIsFact(s.rows[i], user, trimmed);
    }
    if found.Some? && Fact(trimmed) != "" {
      var t := s.Save(user, content, kind);
      var i := found.value;
      assert t.rows == s.rows[i := s.rows[i].(kind := t.rows[i].kind)];
    }
  }

  /** Ids stay below the counter; a save removes nothing, a forget adds nothing. */
  lemma StoreShape(s: Store, user: Id, text: string, kind: MemoryKind)
    requires s.Valid()
    ensures var t := s.Save(user, text, kind); t.Valid() && s.nextId <= t.nextId && s.rows.Keys <= t.rows.Keys
    ensures var t := s.Forget(user, text); t.Valid() && t.nextId == s.nextId && t.rows.Keys <= s.rows.Keys
  {
    hide NormalizeContent, CompactContent, Trim, Truncate, FindSame, FindLike;
  }

  lemma SaveKeepsDistinct(s: Store, user: Id, content: string, kind: MemoryKind)
    requires Distinct(s)
    ensures Distinct(s.Save(user, content, kind))
  {
    SaveMeaning(s, user, content, kind);
  }

  lemma {:induction false} StripConcat(a: string, b: string)
    ensures StripSpaces(a + b) == StripSpaces(a) + StripSpaces(b)
  {
    if a == "" {
      assert a + b == b;
    } else {
      assert (a + b)[1..] == a[1..] + b;
      StripConcat(a[1..], b);
    }
  }

  lemma StrippedContains(s: string, q: string)
    requires Contains(s, q)
    ensures Contains(StripSpaces(s), StripSpaces(q))
  {
    var k :| 0 <= k <= |s| && q <= s[k..];
    var tail := s[k..][|q|..];
    assert s[k..] == q + tail && s == s[..k] + s[k..];
    StripConcat(s[..k], q + tail);
    StripConcat(q, tail);
    assert StripSpaces(s)[|StripSpaces(s[..k])|..] == StripSpaces(q) + StripSpaces(tail);
  }

  lemma LikeFactIsContainment(row: MemoryRow, user: Id, q: string)
    ensures LikeFact(row, user, NormalizeContent(q), CompactContent(q))
            <==> row.user == user && Contains(Fact(row.content), Fact(q))
  {
    NormalizersAgree(row.content);
    NormalizersAgree(q);
    Like.EscapedPatternIsSubstring(NormalizeContent(q), SqlNormalize(row.content));
    Like.EscapedPatternIsSubstring(CompactContent(q), SqlCompact(row.content));
    if Contains(SqlNormalize(row.content), NormalizeContent(q)) {
      StrippedContains(SqlNormalize(row.content), NormalizeContent(q));
    }
  }

  predicate Holds(row: MemoryRow, user: Id, fact: string) {
    row.user == user && Fact(row.content) == fact
  }

  ghost predicate Mentions(row: MemoryRow, user: Id, fact: string) {
    row.user == user && Contains(Fact(row.content), fact)
  }

  lemma RowTests(row: MemoryRow, user: Id, q: string)
    ensures SameFact(row, user, NormalizeContent(q), CompactContent(q)) <==> Holds(row, user, Fact(q))
    ensures LikeFact(row, user, NormalizeContent(q), CompactContent(q)) <==> Mentions(row, user, Fact(q))
    ensures Holds(row, user, Fact(q)) ==> Mentions(row, user, Fact(q))
  {
    SameFactIsFact(row, user, q);
    LikeFactIsContainment(row, user, q);
    assert Fact(row.content)[0..] == Fact(row.content);
  }

  /** Forgetting removes exactly one row when the user has a row whose fact contains the query's:
      that row contains it, an equal fact wins over a containing one, and otherwise nothing changes. */
  lemma ForgetMeaning(s: Store, user: Id, query: string)
    requires s.Valid()
    ensures var fact, hit, t := Fact(Trim(query)), s.Target(user, query), s.Forget(user, query);
            && (hit.Some? <==> fact != "" && exists i :: i in s.rows && Mentions(s.rows[i], user, fact))
            && (hit.Some? ==> hit.value in s.rows && Mentions(s.rows[hit.value], user, fact)
                              && t.rows.Keys == s.rows.Keys - {hit.value}
                              && forall i :: i in t.rows ==> t.rows[i] == s.rows[i])
            && (hit.Some? ==> forall j :: j in s.rows && Holds(s.rows[j], user, fact)
                                ==> Holds(s.rows[hit.value], user, fact))
            && (hit.None? ==> t == s)
  {
    var q := Trim(query);
    NormalizersAgree(q);
    assert CompactContent(q) == Fact(q);
    assert q == "" ==> Fact(q) == "";
    forall i | i in s.rows
      ensures SameFact(s.rows[i], user, NormalizeContent(q), CompactContent(q)) <==> Holds(s.rows[i], user, Fact(q))
      ensures LikeFact(s.rows[i], user, NormalizeContent(q), CompactContent(q)) <==> Mentions(s.rows[i], user, Fact(q))
      ensures Holds(s.rows[i], user, Fact(q)) ==> Mentions(s.rows[i], user, Fact(q))
    {
      RowTests(s.rows[i], user, q);
    }
  }

  lemma ForgetKeepsDistinct(s: Store, user: Id, query: string)
    requires Distinct(s)
    ensures Distinct(s.Forget(user, query))
  {
  }

  /** A new fact, saved and forgotten by the same words, is gone and took nothing else with it. */
  lemma SaveThenForget(s: Store, user: Id, content: string, kind: MemoryKind)
    requires Distinct(s) && |Trim(content)| <= CONTENT_MAX && Fact(Trim(content)) != ""
    requires forall i :: i in s.rows ==> !Holds(s.rows[i], user, Fact(Trim(content)))
    ensures s.Save(user, content, kind).Forget(user, content).rows == s.rows
  {
    var fact, row := Fact(Trim(content)), MemoryRow(user, Trim(content), kind);
    var u := Store(s.rows[s.nextId := row], s.nextId + 1);
    SaveOfNewFact(s, user, content, kind);
    HoldsMentions(row, user, fact);
    ForgetMeaning(u, user, content);
    hide Fact, Trim, SavedText, Store.Save, Store.Target, Mentions;
    assert u.rows[s.nextId] == row && s.nextId !in s.rows;
    assert u.rows - {s.nextId} == s.rows;
  }

  lemma SaveOfNewFact(s: Store, user: Id, content: string, kind: MemoryKind)
    requires s.Valid() && |Trim(content)| <= CONTENT_MAX && Fact(Trim(content)) != ""
    requires forall i :: i in s.rows ==> !Holds(s.rows[i], user, Fact(Trim(content)))
    ensures s.Save(user, content, kind) == Store(s.rows[s.nextId := MemoryRow(user, Trim(content), kind)], s.nextId + 1)
  {
    assert SavedText(content) == Trim(content);
    SaveMeaning(s, user, content, kind);
    hide Store.Save, Fact, Trim, SavedText;
  }

  lemma HoldsMentions(row: MemoryRow, user: Id, fact: string)
    requires Holds(row, user, fact)
    ensures Mentions(row, user, fact)
  {
    hide Fact;
    assert fact <= Fact(row.content)[0..];
  }

  lemma SavedRowsFit(s: Store, user: Id, content: string, kind: MemoryKind)
    requires forall i :: i in s.rows ==> |s.rows[i].content| <= CONTENT_MAX
    ensures var t := s.Save(user, content, kind); forall i :: i in t.rows ==> |t.rows[i].content| <= CONTENT_MAX
  {
    hide NormalizeContent, CompactContent, Trim, FindSame;
  }

  lemma KeptRowsFit(s: Store, user: Id, query: string)
    requires forall i :: i in s.rows ==> |s.rows[i].content| <= CONTENT_MAX
    ensures var t := s.Forget(user, query); forall i :: i in t.rows ==> |t.rows[i].content| <= CONTENT_MAX
  {
    hide Store.Target;
  }

  ghost predicate SameFacts(a: map<Id, MemoryRow>, b: map<Id, MemoryRow>, user: Id) {
    && (forall i :: i in a && a[i].user == user ==> i in b && b[i] == a[i])
    && (forall i :: i in b && b[i].user == user ==> i in a && a[i].user == user)
  }

  lemma SaveTouchesOwn(s: Store, user: Id, content: string, kind: MemoryKind, other: Id)
    requires s.Valid() && user != other
    ensures SameFacts(s.rows, s.Save(user, content, kind).rows, other)
  {
    SaveMeaning(s, user, content, kind);
    hide Store.Save, Fact, SavedText;
  }

  lemma ForgetTouchesOwn(s: Store, user: Id, query: string, other: Id)
    requires s.Valid() && user != other
    ensures SameFacts(s.rows, s.Forget(user, query).rows, other)
  {
    TargetIsOwn(s, user, query);
    hide Store.Target;
  }

  lemma TargetIsOwn(s: Store, user: Id, query: string)
    ensures var hit := s.Target(user, query); hit.Some? ==> hit.value in s.rows && s.rows[hit.value].user == user
  {
    hide NormalizeContent, CompactContent, SqlNormalize, SqlCompact, Like.Matches, Like.EscapeLike, Trim;
  }

  // ---------------------------------------------------------------- whole runs

  datatype MemoryOp = SaveOp(user: Id, content: string, kind: MemoryKind) | ForgetOp(user: Id, query: string)

  function Step(s: Store, op: MemoryOp): Store {
    match op
    case SaveOp(user, content, kind) => s.Save(user, content, kind)
    case ForgetOp(user, query) => s.Forget(user, query)
  }

  function Run(ops: seq<MemoryOp>): Store {
    if ops == [] then Store(map[], 0) else Step(Run(ops[..|ops| - 1]), ops[|ops| - 1])
  }

  const NO_RANK: nat := 4

  /** What an operation adds to the strength of a fact. */
  function Strength(op: MemoryOp, user: Id, fact: string): nat {
    if op.SaveOp? && op.user == user && Fact(SavedText(op.content)) == fact then Rank(op.kind) else NO_RANK
  }

  /** The strongest rank any save of this fact carried from operation `from` on. */
  function StrongestSince(ops: seq<MemoryOp>, from: nat, user: Id, fact: string): nat {
    if |ops| <= from then NO_RANK
    else Min(StrongestSince(ops[..|ops| - 1], from, user, fact), Strength(ops[|ops| - 1], user, fact))
  }

  lemma {:induction false} StoreInvariant(ops: seq<MemoryOp>)
    ensures Distinct(Run(ops))
  {
    if ops != [] {
      var last := ops[|ops| - 1];
      StoreInvariant(ops[..|ops| - 1]);
      match last
      case SaveOp(user, content, kind) => SaveKeepsDistinct(Run(ops[..|ops| - 1]), user, content, kind);
      case ForgetOp(user, query) => ForgetKeepsDistinct(Run(ops[..|ops| - 1]), user, query);
    }
  }

  /** A row that survives an operation keeps its text, and takes the stronger of its own rank and
      the operation's. */
  lemma RowSurvives(s: Store, op: MemoryOp, id: Id)
    requires Distinct(s) && id in s.rows && id in Step(s, op).rows
    ensures var row, row' := s.rows[id], Step(s, op).rows[id];
            row'.user == row.user && row'.content == row.content
            && Rank(row'.kind) == Min(Rank(row.kind), Strength(op, row.user, Fact(row.content)))
  {
    hide Fact, SavedText, Store.Save, Store.Forget;
    if op.SaveOp? {
      SaveMeaning(s, op.user, op.content, op.kind);
      assert Step(s, op) == s.Save(op.user, op.content, op.kind);
    } else {
      ForgetMeaning(s, op.user, op.query);
    }
  }

  /** A row can only appear by a save, under the next free id, holding that save's text and kind. */
  lemma RowAppears(s: Store, op: MemoryOp, id: Id)
    requires Distinct(s) && id !in s.rows && id in Step(s, op).rows
    ensures op.SaveOp? && id == s.nextId && Step(s, op).nextId == id + 1
    ensures Step(s, op).rows[id] == MemoryRow(op.user, SavedText(op.content), op.kind)
  {
    if op.SaveOp? {
      SaveMeaning(s, op.user, op.content, op.kind);
    }
  }

  /** Row `id` of the final store was inserted by operation `at`, and its rank is the strongest of
      all saves of its fact from then on. */
  ghost predicate Explained(ops: seq<MemoryOp>, row: MemoryRow, id: Id, at: nat) {
    && at < |ops| && ops[at].SaveOp? && ops[at].user == row.user && SavedText(ops[at].content) == row.content
    && Run(ops[..at]).nextId == id
    && Rank(row.kind) == StrongestSince(ops, at, row.user, Fact(row.content))
  }

  lemma ExplainedSurvives(ops: seq<MemoryOp>, row: MemoryRow, row': MemoryRow, id: Id, at: nat)
    requires ops != [] && Explained(ops[..|ops| - 1], row, id, at)
    requires row'.user == row.user && row'.content == row.content
    requires Rank(row'.kind) == Min(Rank(row.kind), Strength(ops[|ops| - 1], row.user, Fact(row.content)))
    ensures Explained(ops, row', id, at)
  {
    assert ops[..|ops| - 1][..at] == ops[..at];
  }

  lemma StrengthAtBirth(ops: seq<MemoryOp>, user: Id, fact: string)
    requires ops != [] && ops[|ops| - 1].SaveOp? && ops[|ops| - 1].user == user
    requires Fact(SavedText(ops[|ops| - 1].content)) == fact
    ensures StrongestSince(ops, |ops| - 1, user, fact) == Rank(ops[|ops| - 1].kind)
  {
    hide Fact, SavedText;
    var init, at := ops[..|ops| - 1], |ops| - 1;
    assert StrongestSince(init, at, user, fact) == NO_RANK;
    assert Strength(ops[at], user, fact) == Rank(ops[at].kind);
  }

  /** After any run of saves and forgets every stored row comes from one save, and its kind's rank is
      the minimum over all saves of that fact since that save inserted it. */
  lemma {:induction false} StoredRankIsStrongest(ops: seq<MemoryOp>, id: Id) returns (at: nat)
    requires id in Run(ops).rows
    ensures Explained(ops, Run(ops).rows[id], id, at)
    decreases |ops|
  {
    var init, last := ops[..|ops| - 1], ops[|ops| - 1];
    var before, after := Run(init), Run(ops);
    assert after == Step(before, last);
    StoreInvariant(init);
    if id in before.rows {
      at := StoredRankIsStrongest(init, id);
      RowSurvives(before, last, id);
      ExplainedSurvives(ops, before.rows[id], after.rows[id], id, at);
    } else {
      RowAppears(before, last, id);
      at := |ops| - 1;
      StrengthAtBirth(ops, last.user, Fact(SavedText(last.content)));
    }
  }
}
