/**
 * The reader of a MySQL `enum('a','b',...)` column type used by
 * `getPeriodicidades`: the leftmost `enum(` followed by at least one
 * character other than `)` and then `)`, as the regular expression
 * `/enum\(([^)]+)\)/` finds it; the captured text split on `,`, and every
 * quote removed from every piece. No match is the `TypeError` the source
 * raises when it indexes the missing match (`None` here).
 */
module EnumColumn {
  import opened Common
  import opened Text

  const Opening: string := "enum("

  /** Length of the longest run of characters other than `)` starting at `j`. */
  function RunLength(t: string, j: nat): (n: nat)
    requires j <= |t|
    ensures j + n <= |t|
    ensures forall k :: j <= k < j + n ==> t[k] != ')'
    ensures j + n < |t| ==> t[j + n] == ')'
    decreases |t| - j
  {
    if j == |t| || t[j] == ')' then 0 else 1 + RunLength(t, j + 1)
  }

  /** A run of `n` characters other than `)` closed by `)` is the longest run. */
  lemma {:induction false} RunLengthExact(t: string, j: nat, n: nat)
    requires j + n < |t| && t[j + n] == ')'
    requires forall k :: j <= k < j + n ==> t[k] != ')'
    ensures RunLength(t, j) == n
    decreases n
  {
    if n > 0 {
      RunLengthExact(t, j + 1, n - 1);
    }
  }

  /** The regular expression matches at position `i`. */
  predicate MatchAt(t: string, i: nat)
  {
    i + 5 <= |t| && t[i..i + 5] == Opening &&
    var n := RunLength(t, i + 5); n > 0 && i + 5 + n < |t|
  }

  /** The leftmost match at or after `i`. */
  function FirstMatch(t: string, i: nat): (r: Option<nat>)
    ensures r.Some? ==> i <= r.value && MatchAt(t, r.value) && forall j :: i <= j < r.value ==> !MatchAt(t, j)
    ensures r.None? ==> forall j :: i <= j ==> !MatchAt(t, j)
    decreases |t| - i
  {
    if |t| < i + 5 then None
    else if MatchAt(t, i) then Some(i)
    else FirstMatch(t, i + 1)
  }

  /** The captured group `([^)]+)`: non-empty and free of `)`. */
  function EnumBody(t: string): (r: Option<string>)
    ensures r.Some? ==> |r.value| >= 1 && ')' !in r.value
    ensures r.None? <==> forall j :: !MatchAt(t, j)
  {
    match FirstMatch(t, 0)
    case None => None
    case Some(i) => Some(t[i + 5..i + 5 + RunLength(t, i + 5)])
  }

  /** The values of the column type, in declaration order, without quotes. */
  function ParseEnum(t: string): (r: Option<seq<string>>)
    ensures r.None? <==> EnumBody(t).None?
    ensures r.Some? ==> |r.value| >= 1
    ensures r.Some? ==> forall k :: 0 <= k < |r.value| ==> '\'' !in r.value[k] && ',' !in r.value[k] && ')' !in r.value[k]
  {
    match EnumBody(t)
    case None => None
    case Some(body) =>
      Some(UnquoteAll(Split(body, ',')))
  }

  /** Every piece without its quotes (`.map((val) => val.replace(/'/g, ''))`). */
  function UnquoteAll(pieces: seq<string>): (r: seq<string>)
    ensures |r| == |pieces| && forall k :: 0 <= k < |r| ==> r[k] == Remove(pieces[k], '\'')
  {
    seq(|pieces|, k requires 0 <= k < |pieces| => Remove(pieces[k], '\''))
  }

  /** A value between quotes, as MySQL prints it in a column type. */
  function Quoted(v: string): string
  {
    "'" + v + "'"
  }

  function QuoteAll(vals: seq<string>): (r: seq<string>)
    ensures |r| == |vals| && forall k :: 0 <= k < |r| ==> r[k] == Quoted(vals[k])
  {
    seq(|vals|, k requires 0 <= k < |vals| => Quoted(vals[k]))
  }

  /** The column type MySQL reports for an enumeration of `vals`. */
  function EnumType(vals: seq<string>): string
    requires |vals| >= 1
  {
    Opening + Join(QuoteAll(vals), ',') + ")"
  }

  /** A `)`-free non-empty text between `enum(` and `)` is exactly what is captured. */
  lemma EnumBodyOf(body: string)
    requires |body| >= 1 && ')' !in body
    ensures EnumBody(Opening + body + ")") == Some(body)
  {
    var t := Opening + body + ")";
    assert t[0..5] == Opening;
    assert t[5..5 + |body|] == body;
    RunLengthExact(t, 5, |body|);
    assert MatchAt(t, 0);
  }

  /** The quotes around a value without quotes come off. */
  lemma UnquoteQuoted(v: string)
    requires '\'' !in v
    ensures Remove(Quoted(v), '\'') == v
  {
    RemoveConcat("'" + v, "'", '\'');
    RemoveConcat("'", v, '\'');
    RemoveAbsent(v, '\'');
    assert Remove("'", '\'') == "";
    assert "'" + v + "'" == ("'" + v) + "'";
  }

  /** The quoted values joined by commas: no `)`, and splitting on `,` gives the quoted values back. */
  lemma QuotedList(vals: seq<string>)
    requires |vals| >= 1
    requires forall k :: 0 <= k < |vals| ==> '\'' !in vals[k] && ',' !in vals[k] && ')' !in vals[k]
    ensures ')' !in Join(QuoteAll(vals), ',') && Split(Join(QuoteAll(vals), ','), ',') == QuoteAll(vals)
  {
    var quoted := QuoteAll(vals);
    var body := Join(quoted, ',');
    JoinChars(quoted, ',');
    forall x | x in body ensures x != ')' {
      if x != ',' {
        var i :| 0 <= i < |quoted| && x in quoted[i];
        assert quoted[i] == "'" + vals[i] + "'";
      }
    }
    forall i | 0 <= i < |quoted| ensures ',' !in quoted[i] {
      assert quoted[i] == "'" + vals[i] + "'";
    }
    SplitJoin(quoted, ',');
  }

  /** Values with no quote, comma or closing parenthesis come back exactly, in order. */
  lemma ParseEnumType(vals: seq<string>)
    requires |vals| >= 1
    requires forall k :: 0 <= k < |vals| ==> '\'' !in vals[k] && ',' !in vals[k] && ')' !in vals[k]
    ensures ParseEnum(EnumType(vals)) == Some(vals)
  {
    var quoted := QuoteAll(vals);
    QuotedList(vals);
    EnumBodyOf(Join(quoted, ','));
    forall k | 0 <= k < |vals| ensures Remove(quoted[k], '\'') == vals[k] {
      UnquoteQuoted(vals[k]);
    }
    assert UnquoteAll(quoted) == vals;
  }

  const Periodicities: seq<string> := ["mensual", "bimestral", "trimestral", "anual"]

  lemma PeriodicitiesQuoted()
    ensures QuoteAll(Periodicities) == ["'mensual'", "'bimestral'", "'trimestral'", "'anual'"]
  {
    var q := QuoteAll(Periodicities);
    assert q[0] == "'mensual'" && q[1] == "'bimestral'" && q[2] == "'trimestral'" && q[3] == "'anual'";
  }

  /** The periodicity column type, value by value. */
  lemma PeriodicitiesType()
    ensures EnumType(Periodicities) == "enum(" + "'mensual'" + "," + "'bimestral'" + "," + "'trimestral'" + "," + "'anual'" + ")"
  {
    PeriodicitiesQuoted();
    var q := QuoteAll(Periodicities);
    assert Join(q[3..], ',') == q[3];
    assert Join(q[2..], ',') == q[2] + [','] + q[3] by { assert q[2..][1..] == q[3..]; }
    assert Join(q[1..], ',') == q[1] + [','] + (q[2] + [','] + q[3]) by { assert q[1..][1..] == q[2..]; }
  }

  /** The advance periodicity column. */
  lemma PeriodicitiesExample()
    ensures ParseEnum("enum(" + "'mensual'" + "," + "'bimestral'" + "," + "'trimestral'" + "," + "'anual'" + ")")
         == Some(["mensual", "bimestral", "trimestral", "anual"])
  {
    PeriodicitiesType();
    ParseEnumType(Periodicities);
  }

  /** An empty `enum()` and an unterminated `enum(` have no match. */
  lemma NotAnEnum()
    ensures ParseEnum("enum()") == None
    ensures ParseEnum("enum('a'") == None
  {
    assert !MatchAt("enum()", 0);
    assert !MatchAt("enum('a'", 0);
  }
}
