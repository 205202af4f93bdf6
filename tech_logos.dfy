/** The technology-logo table of app.py and its lookup `get_tech_logo`, which the
    page templates can call: app.py registers it as a template global.

    The Python dictionary `TECH_LOGOS` is modelled as the ordered sequence of its
    (key, url) pairs, in the order of the literal: dictionary iteration order is
    insertion order, and the case-insensitive tier of the lookup depends on it. */
module TechLogos {
  import opened Wrappers

  type Table = seq<(string, string)>

  /** `TECH_LOGOS`, entry for entry and in the literal's order. */
  const TechLogoTable: Table :=
    [
      ("Python", "https://cdn.jsdelivr.net/gh/devicons/devicon/icons/python/python-original.svg"),
      ("SQL", "https://cdn.jsdelivr.net/gh/devicons/devicon/icons/mysql/mysql-original.svg"),
      ("MySQL", "https://cdn.jsdelivr.net/gh/devicons/devicon/icons/mysql/mysql-original.svg"),
      ("PostgreSQL", "https://cdn.jsdelivr.net/gh/devicons/devicon/icons/postgresql/postgresql-original.svg"),
      ("Pandas", "https://cdn.jsdelivr.net/gh/devicons/devicon/icons/pandas/pandas-original.svg"),
      ("NumPy", "https://cdn.jsdelivr.net/gh/devicons/devicon/icons/numpy/numpy-original.svg"),
      ("Matplotlib", "https://cdn.jsdelivr.net/gh/devicons/devicon/icons/matplotlib/matplotlib-original.svg"),
      ("Seaborn", "https://seaborn.pydata.org/_images/logo-mark-lightbg.svg"),
      ("Scikit-learn", "https://upload.wikimedia.org/wikipedia/commons/0/05/Scikit_learn_logo_small.svg"),
      ("TensorFlow", "https://cdn.jsdelivr.net/gh/devicons/devicon/icons/tensorflow/tensorflow-original.svg"),
      ("Keras", "https://upload.wikimedia.org/wikipedia/commons/a/ae/Keras_logo.svg"),
      ("Flask", "https://cdn.jsdelivr.net/gh/devicons/devicon/icons/flask/flask-original.svg"),
      ("Django", "https://cdn.jsdelivr.net/gh/devicons/devicon/icons/django/django-plain.svg"),
      ("Tableau", "https://cdn.worldvectorlogo.com/logos/tableau-software.svg"),
      ("PowerBI", "https://upload.wikimedia.org/wikipedia/commons/c/cf/New_Power_BI_Logo.svg"),
      ("Power BI", "https://upload.wikimedia.org/wikipedia/commons/c/cf/New_Power_BI_Logo.svg"),
      ("Excel", "https://upload.wikimedia.org/wikipedia/commons/3/34/Microsoft_Office_Excel_%282019%E2%80%93present%29.svg"),
      ("Jupyter", "https://cdn.jsdelivr.net/gh/devicons/devicon/icons/jupyter/jupyter-original.svg"),
      ("Git", "https://cdn.jsdelivr.net/gh/devicons/devicon/icons/git/git-original.svg"),
      ("GitHub", "https://cdn.jsdelivr.net/gh/devicons/devicon/icons/github/github-original.svg"),
      ("Docker", "https://cdn.jsdelivr.net/gh/devicons/devicon/icons/docker/docker-original.svg"),
      ("AWS", "https://cdn.jsdelivr.net/gh/devicons/devicon/icons/amazonwebservices/amazonwebservices-original-wordmark.svg"),
      ("Azure", "https://cdn.jsdelivr.net/gh/devicons/devicon/icons/azure/azure-original.svg"),
      ("R", "https://cdn.jsdelivr.net/gh/devicons/devicon/icons/r/r-original.svg"),
      ("Java", "https://cdn.jsdelivr.net/gh/devicons/devicon/icons/java/java-original.svg"),
      ("JavaScript", "https://cdn.jsdelivr.net/gh/devicons/devicon/icons/javascript/javascript-original.svg"),
      ("HTML", "https://cdn.jsdelivr.net/gh/devicons/devicon/icons/html5/html5-original.svg"),
      ("CSS", "https://cdn.jsdelivr.net/gh/devicons/devicon/icons/css3/css3-original.svg"),
      ("React", "https://cdn.jsdelivr.net/gh/devicons/devicon/icons/react/react-original.svg"),
      ("MongoDB", "https://cdn.jsdelivr.net/gh/devicons/devicon/icons/mongodb/mongodb-original.svg"),
      ("Spark", "https://cdn.jsdelivr.net/gh/devicons/devicon/icons/apachespark/apachespark-original.svg"),
      ("Hadoop", "https://cdn.jsdelivr.net/gh/devicons/devicon/icons/hadoop/hadoop-original.svg"),
      ("Kaggle", "https://cdn4.iconfinder.com/data/icons/logos-and-brands/512/189_Kaggle_logo_logos-512.png")
    ]

  /** The generic code icon returned when nothing in the table matches. */
  const DefaultLogo: string := "https://cdn.jsdelivr.net/npm/simple-icons@v9/icons/code.svg"

  // ---------------------------------------------------------------------------
  // Lower-casing (ASCII only; see README)

  function LowerChar(c: char): (r: char)
    ensures 'A' <= c <= 'Z' ==> r as int == c as int + 32
    ensures !('A' <= c <= 'Z') ==> r == c
  {
    if 'A' <= c <= 'Z' then (c as int + 32) as char else c
  }

  /** `s.lower()` restricted to ASCII letters: every upper-case ASCII letter is
      replaced by its lower-case partner, everything else is kept. */
  function Lower(s: string): (r: string)
    ensures |r| == |s|
    ensures forall i :: 0 <= i < |s| ==> r[i] == LowerChar(s[i])
  {
    if s == [] then [] else [LowerChar(s[0])] + Lower(s[1..])
  }

  // ---------------------------------------------------------------------------
  // Properties of a table

  /** The keys of a Python dictionary are pairwise different. */
  ghost predicate DistinctKeys(table: Table)
  {
    forall i, j :: 0 <= i < j < |table| ==> table[i].0 != table[j].0
  }

  /** No two keys differ only in letter case. */
  ghost predicate DistinctLowerKeys(table: Table)
  {
    forall i, j :: 0 <= i < j < |table| ==> Lower(table[i].0) != Lower(table[j].0)
  }

  ghost predicate HasKey(table: Table, name: string)
  {
    exists i :: 0 <= i < |table| && table[i].0 == name
  }

  ghost predicate HasKeyIgnoringCase(table: Table, name: string)
  {
    exists i :: 0 <= i < |table| && Lower(table[i].0) == Lower(name)
  }

  lemma DistinctLowerKeysImpliesDistinctKeys(table: Table)
    requires DistinctLowerKeys(table)
    ensures DistinctKeys(table)
  {
  }

  // ---------------------------------------------------------------------------
  // The two searches of get_tech_logo

  /** The position of `name` among the keys (`tech_name in TECH_LOGOS` and the
      subscript that follows it): the first key equal to `name`, if any. */
  function ExactIndex(table: Table, name: string): (r: Option<nat>)
    ensures r.None? ==> forall j :: 0 <= j < |table| ==> table[j].0 != name
    ensures r.Some? ==> r.value < |table| && table[r.value].0 == name
    ensures r.Some? ==> forall j :: 0 <= j < r.value ==> table[j].0 != name
  {
    if table == [] then None
    else if table[0].0 == name then Some(0)
    else match ExactIndex(table[1..], name)
      case None => None
      case Some(i) => Some(i + 1)
  }

  /** The position at which the loop over `TECH_LOGOS.items()` returns: the first
      key whose lower-case form equals `lowered`, if any. */
  function CaseInsensitiveIndex(table: Table, lowered: string): (r: Option<nat>)
    ensures r.None? ==> forall j :: 0 <= j < |table| ==> Lower(table[j].0) != lowered
    ensures r.Some? ==> r.value < |table| && Lower(table[r.value].0) == lowered
    ensures r.Some? ==> forall j :: 0 <= j < r.value ==> Lower(table[j].0) != lowered
  {
    if table == [] then None
    else if Lower(table[0].0) == lowered then Some(0)
    else match CaseInsensitiveIndex(table[1..], lowered)
      case None => None
      case Some(i) => Some(i + 1)
  }

  /** What `get_tech_logo(name)` returns when the dictionary is `table`:
      an exact hit, else the first case-insensitive hit, else the default icon. */
  function TechLogo(table: Table, name: string): (r: string)
    ensures r == DefaultLogo || exists i :: 0 <= i < |table| && r == table[i].1
  {
    match ExactIndex(table, name)
    case Some(i) => table[i].1
    case None =>
      match CaseInsensitiveIndex(table, Lower(name))
      case Some(i) => table[i].1
      case None => DefaultLogo
  }

  /** `get_tech_logo` as app.py writes it: dictionary membership first, then a
      loop over the entries in table order that returns at the first key whose
      lower-case form matches, then the default icon. */
  method GetTechLogo(table: Table, name: string) returns (url: string)
    ensures url == TechLogo(table, name)
  {
    var exact := ExactIndex(table, name);
    if exact.Some? {
      return table[exact.value].1;
    }
    var lowered := Lower(name);
    var k := 0;
    while k < |table|
      invariant 0 <= k <= |table|
      invariant forall j :: 0 <= j < k ==> Lower(table[j].0) != lowered
    {
      var (key, value) := table[k];
      if Lower(key) == lowered {
        FirstCaseInsensitiveKeyWins(table, name, k);
        return value;
      }
      k := k + 1;
    }
    NoMatchGivesDefault(table, name);
    url := DefaultLogo;
  }

  // ---------------------------------------------------------------------------
  // The three tiers

  /** Tier 1: a name that is exactly a key gets that key's URL. */
  lemma ExactKeyWins(table: Table, name: string, i: nat)
    requires DistinctKeys(table)
    requires i < |table| && table[i].0 == name
    ensures TechLogo(table, name) == table[i].1
  {
  }

  /** Tier 2: with no exact hit, the first key in table order that matches
      ignoring case decides the URL. */
  lemma FirstCaseInsensitiveKeyWins(table: Table, name: string, i: nat)
    requires !HasKey(table, name)
    requires i < |table| && Lower(table[i].0) == Lower(name)
    requires forall j :: 0 <= j < i ==> Lower(table[j].0) != Lower(name)
    ensures TechLogo(table, name) == table[i].1
  {
    assert ExactIndex(table, name).None?;
    assert CaseInsensitiveIndex(table, Lower(name)) == Some(i);
  }

  /** Tier 3: a name matching no key, even ignoring case, gets the default icon. */
  lemma NoMatchGivesDefault(table: Table, name: string)
    requires !HasKeyIgnoringCase(table, name)
    ensures TechLogo(table, name) == DefaultLogo
  {
  }

  /** The default icon is used only when nothing matches: any name that matches
      a key, in either tier, gets a URL from the table. */
  lemma MatchAvoidsDefault(table: Table, name: string, i: nat)
    requires i < |table| && Lower(table[i].0) == Lower(name)
    ensures exists j :: 0 <= j < |table| && TechLogo(table, name) == table[j].1
  {
  }

  /** Every case variant of a key (`'python'`, `'PYTHON'`) resolves to the same
      URL as the key itself, provided no two keys differ only in case. */
  lemma CaseVariantsAgree(table: Table, name: string, i: nat)
    requires DistinctLowerKeys(table)
    requires i < |table| && Lower(name) == Lower(table[i].0)
    ensures TechLogo(table, name) == table[i].1
    ensures TechLogo(table, name) == TechLogo(table, table[i].0)
  {
    DistinctLowerKeysImpliesDistinctKeys(table);
    ExactKeyWins(table, table[i].0, i);
    match ExactIndex(table, name)
    case Some(j) =>
      SameLowerSamePosition(table, i, j);
    case None =>
      var j := CaseInsensitiveIndex(table, Lower(name)).value;
      SameLowerSamePosition(table, i, j);
  }

  lemma SameLowerSamePosition(table: Table, i: nat, j: nat)
    requires DistinctLowerKeys(table)
    requires i < |table| && j < |table| && Lower(table[i].0) == Lower(table[j].0)
    ensures i == j
  {
  }

  // ---------------------------------------------------------------------------
  // The concrete table

  /** `TECH_LOGOS` has 33 entries, none of them with an empty URL. */
  lemma TechLogoTableUrlsNonEmpty()
    ensures |TechLogoTable| == 33
    ensures forall i :: 0 <= i < |TechLogoTable| ==> TechLogoTable[i].1 != ""
  {
  }

  /** A cheap fingerprint of a key's lower-case form: its length and its first
      and last characters, lower-cased. */
  function KeySignature(k: string): (sig: int)
  {
    if k == [] then 0
    else |k| * 1_000_000 + LowerChar(k[0]) as int * 1000 + LowerChar(k[|k| - 1]) as int
  }

  lemma SameLowerSameSignature(a: string, b: string)
    requires Lower(a) == Lower(b)
    ensures KeySignature(a) == KeySignature(b)
  {
    if a != [] {
      assert Lower(a)[0] == Lower(b)[0];
      assert Lower(a)[|a| - 1] == Lower(b)[|b| - 1];
    }
  }

  /** The signatures of the keys of `TECH_LOGOS`, in table order, computed by
      hand from the keys; `KeySignatureOf` below checks each one against
      `KeySignature` of its key.

      The if-cascades with empty branches in the lemmas that follow are case
      splits for the solver: each branch fixes one index, so the solver
      compares concrete constants instead of reasoning about a symbolic index
      into the 33-element literal. */
  ghost const TechLogoKeySignatures: seq<int> :=
    [
      6112110, 3115108, 5109108, 10112108, 6112115, 5110121,
      10109098, 7115110, 12115110, 10116119, 5107115, 5102107,
      6100111, 7116117, 7112105, 8112105, 5101108, 7106114,
      3103116, 6103098, 6100114, 3097115, 5097101, 1114114,
      4106097, 10106116, 4104108, 3099115, 5114116, 7109098,
      5115107, 6104112, 6107101
    ]

  lemma KeySignaturesDistinct1(i: int)
    requires 0 <= i < 5
    ensures forall j :: i < j < |TechLogoKeySignatures| ==>
      TechLogoKeySignatures[i] != TechLogoKeySignatures[j]
  {
    if i == 0 { }
    else if i == 1 { }
    else if i == 2 { }
    else if i == 3 { }
    else if i == 4 { }
  }

  lemma KeySignaturesDistinct2(i: int)
    requires 5 <= i < 12
    ensures forall j :: i < j < |TechLogoKeySignatures| ==>
      TechLogoKeySignatures[i] != TechLogoKeySignatures[j]
  {
    if i == 5 { }
    else if i == 6 { }
    else if i == 7 { }
    else if i == 8 { }
    else if i == 9 { }
    else if i == 10 { }
    else if i == 11 { }
  }

  lemma KeySignaturesDistinct3(i: int)
    requires 12 <= i < 33
    ensures forall j :: i < j < |TechLogoKeySignatures| ==>
      TechLogoKeySignatures[i] != TechLogoKeySignatures[j]
  {
    if i == 12 { }
    else if i == 13 { }
    else if i == 14 { }
    else if i == 15 { }
    else if i == 16 { }
    else if i == 17 { }
    else if i == 18 { }
    else if i == 19 { }
    else if i == 20 { }
    else if i == 21 { }
    else if i == 22 { }
    else if i == 23 { }
    else if i == 24 { }
    else if i == 25 { }
    else if i == 26 { }
    else if i == 27 { }
    else if i == 28 { }
    else if i == 29 { }
    else if i == 30 { }
    else if i == 31 { }
    else if i == 32 { }
  }

  lemma KeySignatureChunk1(i: int)
    requires 0 <= i < 5
    ensures KeySignature(TechLogoTable[i].0) == TechLogoKeySignatures[i]
  {
    if i == 0 { }
    else if i == 1 { }
    else if i == 2 { }
    else if i == 3 { }
    else if i == 4 { }
  }

  lemma KeySignatureChunk2(i: int)
    requires 5 <= i < 11
    ensures KeySignature(TechLogoTable[i].0) == TechLogoKeySignatures[i]
  {
    if i == 5 { }
    else if i == 6 { }
    else if i == 7 { }
    else if i == 8 { }
    else if i == 9 { }
    else if i == 10 { }
  }

  lemma KeySignatureChunk3(i: int)
    requires 11 <= i < 19
    ensures KeySignature(TechLogoTable[i].0) == TechLogoKeySignatures[i]
  {
    if i == 11 { }
    else if i == 12 { }
    else if i == 13 { }
    else if i == 14 { }
    else if i == 15 { }
    else if i == 16 { }
    else if i == 17 { }
    else if i == 18 { }
  }

  lemma KeySignatureChunk4(i: int)
    requires 19 <= i < 33
    ensures KeySignature(TechLogoTable[i].0) == TechLogoKeySignatures[i]
  {
    if i == 19 { }
    else if i == 20 { }
    else if i == 21 { }
    else if i == 22 { }
    else if i == 23 { }
    else if i == 24 { }
    else if i == 25 { }
    else if i == 26 { }
    else if i == 27 { }
    else if i == 28 { }
    else if i == 29 { }
    else if i == 30 { }
    else if i == 31 { }
    else if i == 32 { }
  }

  lemma KeySignatureOf(i: int)
    requires 0 <= i < |TechLogoTable|
    ensures KeySignature(TechLogoTable[i].0) == TechLogoKeySignatures[i]
  {
    if i < 5 { KeySignatureChunk1(i); }
    else if i < 11 { KeySignatureChunk2(i); }
    else if i < 19 { KeySignatureChunk3(i); }
    else { KeySignatureChunk4(i); }
  }

  /** No two keys of `TECH_LOGOS` differ only in case ('PowerBI' and 'Power BI'
      differ in length, 'SQL' and 'MySQL' in their first letter). */
  lemma TechLogoTableLowerKeysDistinct()
    ensures DistinctLowerKeys(TechLogoTable)
  {
    var t := TechLogoTable;
    forall i, j | 0 <= i < j < |t|
      ensures Lower(t[i].0) != Lower(t[j].0)
    {
      if i < 5 { KeySignaturesDistinct1(i); }
      else if i < 12 { KeySignaturesDistinct2(i); }
      else { KeySignaturesDistinct3(i); }
      KeySignatureOf(i);
      KeySignatureOf(j);
      if Lower(t[i].0) == Lower(t[j].0) {
        SameLowerSameSignature(t[i].0, t[j].0);
      }
    }
  }

  /** Totality for the real table: `get_tech_logo` never returns an empty string. */
  lemma GetTechLogoNeverEmpty(name: string)
    ensures TechLogo(TechLogoTable, name) != ""
  {
    TechLogoTableUrlsNonEmpty();
  }

  /** Case variants of a key of `TECH_LOGOS` get the key's own URL:
      `'python'`, `'PYTHON'` and `'Python'` all get the Python logo. */
  lemma TechLogoCaseVariants(name: string, i: nat)
    requires i < |TechLogoTable| && Lower(name) == Lower(TechLogoTable[i].0)
    ensures TechLogo(TechLogoTable, name) == TechLogoTable[i].1
  {
    TechLogoTableLowerKeysDistinct();
    CaseVariantsAgree(TechLogoTable, name, i);
  }
}
