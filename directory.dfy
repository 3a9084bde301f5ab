/**
 * The school directory: the id -> name table read from the schools sheet,
 * name lookup by id, and team lookup by free text through the alias table
 * (data_fetcher.py, `fetch_schools`, `get_school_name`, `find_team_by_name`).
 */
module Directory {
  import opened Wrappers
  import opened Text

  /** One entry of the schools dict, kept in insertion order. */
  datatype School = School(id: string, name: string)

  ghost predicate DistinctIds(t: seq<School>) {
    forall i, j :: 0 <= i < j < |t| ==> t[i].id != t[j].id
  }

  /** Alternate spellings -> canonical school name. */
  const TeamAliases: map<string, string> := map[
    "usc" := "USC",
    "southern cal" := "USC",
    "southern california" := "USC",
    "ole miss" := "Ole Miss",
    "mississippi" := "Ole Miss",
    "miami" := "Miami",
    "miami fl" := "Miami",
    "the u" := "Miami",
    "tcu" := "TCU",
    "texas christian" := "TCU",
    "smu" := "SMU",
    "southern methodist" := "SMU",
    "byu" := "BYU",
    "ucf" := "UCF",
    "central florida" := "UCF",
    "lsu" := "LSU",
    "pitt" := "Pitt",
    "pittsburgh" := "Pitt",
    "boston college" := "Boston College",
    "bc" := "Boston College",
    "nc state" := "NC State",
    "north carolina state" := "NC State",
    "va tech" := "Virginia Tech",
    "vt" := "Virginia Tech",
    "virginia polytechnic institute" := "Virginia Tech"
  ]

  /** Index of the entry with this id, or `|t|` when there is none. */
  function IdIndex(t: seq<School>, id: string): (k: nat)
    ensures k <= |t|
    ensures k < |t| ==> t[k].id == id
    ensures forall i :: 0 <= i < k ==> t[i].id != id
  {
    if t == [] || t[0].id == id then 0 else 1 + IdIndex(t[1..], id)
  }

  /** `schools.get(id)`. */
  function Lookup(t: seq<School>, id: string): Option<string> {
    var k := IdIndex(t, id);
    if k < |t| then Some(t[k].name) else None
  }

  lemma LookupCons(a: School, rest: seq<School>)
    ensures forall id :: Lookup([a] + rest, id) == if a.id == id then Some(a.name) else Lookup(rest, id)
  {
    assert ([a] + rest)[1..] == rest;
  }

  /** `schools[id] = name`: replace the name in place, or append a new entry. */
  function Put(t: seq<School>, id: string, name: string): (r: seq<School>)
    ensures Lookup(r, id) == Some(name)
    ensures forall k :: k != id ==> Lookup(r, k) == Lookup(t, k)
    ensures |r| == if Lookup(t, id).Some? then |t| else |t| + 1
  {
    if t == [] then [School(id, name)]
    else if t[0].id == id then
      var r := [School(id, name)] + t[1..];
      assert t == [t[0]] + t[1..];
      LookupCons(School(id, name), t[1..]);
      LookupCons(t[0], t[1..]);
      r
    else
      var rest := Put(t[1..], id, name);
      var r := [t[0]] + rest;
      assert t == [t[0]] + t[1..];
      LookupCons(t[0], rest);
      LookupCons(t[0], t[1..]);
      r
  }

  /** The entries one line of the schools CSV contributes: `id,name,...`. */
  function RowEntry(line: string): Option<School> {
    var parts := SplitOn(line, ',');
    if |parts| >= 2 then Some(School(Strip(parts[0]), Strip(parts[1]))) else None
  }

  /** The data lines of a CSV text: `text.strip().split('\n')[1:]`. */
  function DataLines(text: string): seq<string> {
    SplitOn(Strip(text), '\n')[1..]
  }

  /** Stores a line's entry, if it has one: `schools[id] = name`. */
  function Store(t: seq<School>, entry: Option<School>): seq<School> {
    match entry
    case Some(e) => Put(t, e.id, e.name)
    case None => t
  }

  /** The dict after storing the entries of `lines[..n]`, one by one. */
  function Loaded(t: seq<School>, lines: seq<string>, n: nat): seq<School>
    requires n <= |lines|
  {
    if n == 0 then t else Store(Loaded(t, lines, n - 1), RowEntry(lines[n - 1]))
  }

  /**
   * After loading, an id maps to the name on the LAST data line that names
   * it, and ids no data line names keep their old entry.
   */
  lemma {:induction false} LoadedLookup(t: seq<School>, lines: seq<string>, n: nat, id: string)
    requires n <= |lines|
    ensures Lookup(Loaded(t, lines, n), id) == LastNameFor(lines, n, id, Lookup(t, id))
  {
    if n > 0 {
      LoadedLookup(t, lines, n - 1, id);
      var before := Loaded(t, lines, n - 1);
      match RowEntry(lines[n - 1])
      case None =>
        assert Loaded(t, lines, n) == before;
      case Some(e) =>
        assert Loaded(t, lines, n) == Put(before, e.id, e.name);
        assert Lookup(Put(before, e.id, e.name), id) == if e.id == id then Some(e.name) else Lookup(before, id);
    }
  }

  /** The name the last of `lines[..n]` with this id gives, else `fallback`. */
  function LastNameFor(lines: seq<string>, n: nat, id: string, fallback: Option<string>): Option<string>
    requires n <= |lines|
  {
    if n == 0 then fallback
    else match RowEntry(lines[n - 1])
      case Some(e) => if e.id == id then Some(e.name) else LastNameFor(lines, n - 1, id, fallback)
      case None => LastNameFor(lines, n - 1, id, fallback)
  }

  /**
   * `get_school_name`: "Unknown" for no id, the table's name for a known
   * id, the id text itself for an unknown one.
   */
  function SchoolName(t: seq<School>, id: Option<string>): (name: string)
    ensures id.None? ==> name == "Unknown"
    ensures id.Some? && Lookup(t, id.value).None? ==> name == id.value
    ensures id.Some? && Lookup(t, id.value).Some? ==> name == Lookup(t, id.value).value
  {
    match id
    case None => "Unknown"
    case Some(k) => Lookup(t, k).GetOr(k)
  }

  /** The name of a numeric team id, looked up as `str(int(id))`. */
  function TeamName(t: seq<School>, id: int): string {
    SchoolName(t, Some(Decimal(id)))
  }

  /** Index of the first entry satisfying `p`, or `|t|`. */
  function FirstWhere(t: seq<School>, p: School -> bool): (k: nat)
    ensures k <= |t|
    ensures k < |t| ==> p(t[k])
    ensures forall i :: 0 <= i < k ==> !p(t[i])
  {
    if t == [] || p(t[0]) then 0 else 1 + FirstWhere(t[1..], p)
  }

  function HitAt(t: seq<School>, k: nat): Option<School> {
    if k < |t| then Some(t[k]) else None
  }

  /** Matches the canonical name of an alias, ignoring case. */
  function AliasTier(canonical: string): School -> bool {
    (s: School) => Lower(s.name) == Lower(canonical)
  }

  function ExactTier(query: string): School -> bool {
    (s: School) => Lower(s.name) == query
  }

  function SubstringTier(query: string): School -> bool {
    (s: School) => IsSubstring(query, Lower(s.name))
  }

  /** The lookup key: `team_name.lower().strip()`. */
  function QueryKey(text: string): string {
    Strip(Lower(text))
  }

  /**
   * `find_team_by_name` over an alias table: nothing for empty text;
   * otherwise the first entry (in table order) whose name matches the
   * alias's canonical name, else the first whose name equals the key, else
   * the first whose name contains it, all ignoring case.
   */
  function FindTeamWith(t: seq<School>, aliases: map<string, string>, text: string): (r: Option<School>)
    ensures text == "" ==> r.None?
    ensures r.Some? ==> r.value in t
  {
    if text == "" then None
    else
      var q := QueryKey(text);
      var a := if q in aliases then FirstWhere(t, AliasTier(aliases[q])) else |t|;
      if a < |t| then Some(t[a])
      else
        var e := FirstWhere(t, ExactTier(q));
        if e < |t| then Some(t[e])
        else HitAt(t, FirstWhere(t, SubstringTier(q)))
  }

  /** `find_team_by_name` with the bot's alias table. */
  function FindTeam(t: seq<School>, text: string): Option<School> {
    FindTeamWith(t, TeamAliases, text)
  }

  lemma {:induction false} PrefixIsSubstring(p: string, s: string)
    requires p <= s
    ensures IsSubstring(p, s)
  {
  }

  /** Some entry matches the canonical name the key is an alias of. */
  ghost predicate AliasHit(t: seq<School>, aliases: map<string, string>, q: string) {
    q in aliases && exists i :: 0 <= i < |t| && Lower(t[i].name) == Lower(aliases[q])
  }

  /**
   * Lookup fails exactly when the text is empty, or when the key is no
   * alias of a listed school and no school name contains the key (an exact
   * hit is also a substring hit).
   */
  lemma FindTeamNone(t: seq<School>, aliases: map<string, string>, text: string)
    ensures FindTeamWith(t, aliases, text).None? <==>
      (text == "" ||
       (!AliasHit(t, aliases, QueryKey(text)) &&
        forall i :: 0 <= i < |t| ==> !IsSubstring(QueryKey(text), Lower(t[i].name))))
  {
    if text != "" {
      if FindTeamWith(t, aliases, text).None? {
        NoneMisses(t, aliases, text);
      } else {
        SomeHits(t, aliases, text);
      }
    }
  }

  lemma NoneMisses(t: seq<School>, aliases: map<string, string>, text: string)
    requires text != "" && FindTeamWith(t, aliases, text).None?
    ensures !AliasHit(t, aliases, QueryKey(text))
    ensures forall i :: 0 <= i < |t| ==> !IsSubstring(QueryKey(text), Lower(t[i].name))
  {
    var q := QueryKey(text);
    if q in aliases {
      forall i | 0 <= i < |t| ensures Lower(t[i].name) != Lower(aliases[q]) {
        assert !AliasTier(aliases[q])(t[i]);
      }
    }
    forall i | 0 <= i < |t| ensures !IsSubstring(q, Lower(t[i].name)) {
      assert !SubstringTier(q)(t[i]);
    }
  }

  lemma SomeHits(t: seq<School>, aliases: map<string, string>, text: string)
    requires text != "" && FindTeamWith(t, aliases, text).Some?
    ensures AliasHit(t, aliases, QueryKey(text)) || exists i :: 0 <= i < |t| && IsSubstring(QueryKey(text), Lower(t[i].name))
  {
    var q := QueryKey(text);
    var a := if q in aliases then FirstWhere(t, AliasTier(aliases[q])) else |t|;
    if a < |t| {
      assert AliasTier(aliases[q])(t[a]);
    } else {
      var e := FirstWhere(t, ExactTier(q));
      if e < |t| {
        PrefixIsSubstring(q, Lower(t[e].name));
      } else {
        var s := FirstWhere(t, SubstringTier(q));
        assert SubstringTier(q)(t[s]);
      }
    }
  }

  /**
   * Two spellings that are aliases of the same canonical name find the same
   * school whenever the table holds a school with that name.
   */
  lemma AliasesAgree(t: seq<School>, aliases: map<string, string>, x: string, y: string)
    requires x != "" && y != ""
    requires QueryKey(x) in aliases && QueryKey(y) in aliases
    requires aliases[QueryKey(x)] == aliases[QueryKey(y)]
    requires exists i :: 0 <= i < |t| && Lower(t[i].name) == Lower(aliases[QueryKey(x)])
    ensures FindTeamWith(t, aliases, x) == FindTeamWith(t, aliases, y) != None
  {
    var c := aliases[QueryKey(x)];
    var i :| 0 <= i < |t| && Lower(t[i].name) == Lower(c);
    assert AliasTier(c)(t[i]);
  }
}
