/**
 * A loaded table, as the server's handlers see it. The real table is a pandas
 * DataFrame; the handlers only ever look at its column labels (membership test
 * in train) and at which columns have a numeric dtype (the upload reply).
 */
module Dataset {

  import opened Wrappers

  /** One column: its label and whether pandas infers a numeric dtype for it. */
  datatype Column = Column(name: string, numeric: bool)

  /** A DataFrame, known through its columns in their order. */
  datatype Frame = Frame(columns: seq<Column>)

  /** Every column label, in order (`DataFrame.columns`). */
  function Names(cols: seq<Column>): seq<string>
  {
    if cols == [] then [] else [cols[0].name] + Names(cols[1..])
  }

  /** The labels of the numeric columns, in order (`select_dtypes(include=[np.number]).columns`). */
  function NumericNames(cols: seq<Column>): seq<string>
  {
    if cols == [] then []
    else if cols[0].numeric then [cols[0].name] + NumericNames(cols[1..])
    else NumericNames(cols[1..])
  }

  /** `sub` is obtained from `full` by deleting some elements, keeping the order of the rest. */
  predicate IsSubsequence(sub: seq<string>, full: seq<string>)
  {
    if sub == [] then true
    else if full == [] then false
    else (sub[0] == full[0] && IsSubsequence(sub[1..], full[1..])) || IsSubsequence(sub, full[1..])
  }

  /** A column request names a column of the frame: `col in frame.columns`, where `None` is never a label. */
  predicate Listed(f: Frame, col: Option<string>)
  {
    col.Some? && col.value in Names(f.columns)
  }

  /** A label is listed exactly when some column carries it. */
  lemma {:induction false} NamesMembership(cols: seq<Column>, n: string)
    ensures n in Names(cols) <==> exists i :: 0 <= i < |cols| && cols[i].name == n
  {
    if cols != [] {
      NamesMembership(cols[1..], n);
      if n in Names(cols[1..]) {
        var i :| 0 <= i < |cols[1..]| && cols[1..][i].name == n;
        assert cols[i + 1].name == n;
      }
      if exists i :: 0 <= i < |cols| && cols[i].name == n {
        var i :| 0 <= i < |cols| && cols[i].name == n;
        if i > 0 {
          assert cols[1..][i - 1].name == n;
        }
      }
    }
  }

  /** The numeric labels keep the frame's column order: they are a subsequence of all labels. */
  lemma {:induction false} NumericNamesSubsequence(cols: seq<Column>)
    ensures IsSubsequence(NumericNames(cols), Names(cols))
  {
    if cols != [] {
      NumericNamesSubsequence(cols[1..]);
      if !cols[0].numeric && NumericNames(cols) != [] {
        assert Names(cols)[1..] == Names(cols[1..]);
      }
    }
  }

  /** A label is reported as numeric exactly when some numeric column carries it. */
  lemma {:induction false} NumericNamesMembership(cols: seq<Column>, n: string)
    ensures n in NumericNames(cols) <==> exists i :: 0 <= i < |cols| && cols[i].numeric && cols[i].name == n
  {
    if cols != [] {
      NumericNamesMembership(cols[1..], n);
      if n in NumericNames(cols[1..]) {
        var i :| 0 <= i < |cols[1..]| && cols[1..][i].numeric && cols[1..][i].name == n;
        assert cols[i + 1].numeric && cols[i + 1].name == n;
      }
      if exists i :: 0 <= i < |cols| && cols[i].numeric && cols[i].name == n {
        var i :| 0 <= i < |cols| && cols[i].numeric && cols[i].name == n;
        if i > 0 {
          assert cols[1..][i - 1].numeric && cols[1..][i - 1].name == n;
        }
      }
    }
  }

  /** Every element of a subsequence occurs in the full sequence. */
  lemma {:induction false} SubsequenceMembers(sub: seq<string>, full: seq<string>, n: string)
    requires IsSubsequence(sub, full) && n in sub
    ensures n in full
  {
    if sub[0] == full[0] && IsSubsequence(sub[1..], full[1..]) {
      if n != sub[0] {
        SubsequenceMembers(sub[1..], full[1..], n);
      }
    } else {
      SubsequenceMembers(sub, full[1..], n);
    }
  }
}
