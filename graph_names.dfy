/**
 * The tag `models_str` that data_generate_grpah (main.py and
 * investigations/investigations.py) puts into the name of the saved graph:
 * every model name is shortened and the short forms are joined with '_'.
 *
 * A name without '_' keeps only its first character, as written; a name
 * with '_' gives the upper-cased first character of each part. Python raises
 * IndexError on an empty name or an empty part (`word[0]`); that is `None`.
 */
module GraphNames {
  import opened Wrappers
  import opened Text

  /** The short form of one model name. */
  function Abbrev(name: string): Option<string> {
    var parts := Split(name, '_');
    if |parts| == 1 then (if |name| == 0 then None else Some([name[0]]))
    else if exists k :: 0 <= k < |parts| && |parts[k]| == 0 then None
    else Some(seq(|parts|, k requires 0 <= k < |parts| => UpperChar(parts[k][0])))
  }

  /** The short forms of all names, or None at the first that raises. */
  function Abbrevs(names: seq<string>): (r: Option<seq<string>>)
    ensures r.Some? ==> |r.value| == |names|
    ensures r.Some? ==> forall k :: 0 <= k < |names| ==> Abbrev(names[k]) == Some(r.value[k])
    ensures r.None? ==> exists k :: 0 <= k < |names| && Abbrev(names[k]).None?
  {
    if |names| == 0 then Some([])
    else match (Abbrev(names[0]), Abbrevs(names[1..]))
      case (Some(x), Some(xs)) =>
        assert forall k :: 1 <= k < |names| ==> names[k] == names[1..][k - 1];
        Some([x] + xs)
      case (None, _) => None
      case (_, None) =>
        var k :| 0 <= k < |names[1..]| && Abbrev(names[1..][k]).None?;
        assert names[k + 1] == names[1..][k];
        None
  }

  /** models_str */
  function ModelsStr(names: seq<string>): Option<string> {
    match Abbrevs(names)
    case Some(xs) => Some(Join("_", xs))
    case None => None
  }

  /** A name has a short form exactly when none of its '_'-separated parts is empty. */
  lemma AbbrevDefined(name: string)
    ensures Abbrev(name).Some? <==> forall k :: 0 <= k < |Split(name, '_')| ==> |Split(name, '_')[k]| > 0
  {
    var parts := Split(name, '_');
    if |parts| == 1 {
      JoinSplit(name, '_');
      assert Join(['_'], parts) == parts[0];
      assert name == parts[0];
      assert Abbrev(name).Some? <==> |name| > 0;
      assert (forall k :: 0 <= k < |parts| ==> |parts[k]| > 0) <==> |parts[0]| > 0;
    } else if exists k :: 0 <= k < |parts| && |parts[k]| == 0 {
      var k :| 0 <= k < |parts| && |parts[k]| == 0;
      assert Abbrev(name).None?;
      assert |Split(name, '_')[k]| == 0;
    } else {
      assert Abbrev(name).Some?;
    }
  }

  /** The short form has one character per part, and none of them is '_'. */
  lemma AbbrevShape(name: string)
    requires Abbrev(name).Some?
    ensures |Abbrev(name).value| == |Split(name, '_')|
    ensures '_' !in Abbrev(name).value
  {
    var parts := Split(name, '_');
    if |parts| == 1 {
      JoinSplit(name, '_');
      assert Join(['_'], parts) == parts[0] == name;
      assert name[0] in parts[0];
    } else {
      var r := Abbrev(name).value;
      forall k | 0 <= k < |parts|
        ensures r[k] != '_'
      {
        assert parts[k][0] in parts[k];
      }
    }
  }

  /** Splitting the tag at '_' gives back one short form per model, in order. */
  lemma ModelsStrSplits(names: seq<string>)
    requires |names| >= 1 && ModelsStr(names).Some?
    ensures Split(ModelsStr(names).value, '_') == Abbrevs(names).value
  {
    var xs := Abbrevs(names).value;
    forall k | 0 <= k < |xs|
      ensures '_' !in xs[k]
    {
      AbbrevShape(names[k]);
    }
    SplitJoin(xs, '_');
  }

  /** So the tag has exactly one '_'-separated field per model. */
  lemma ModelsStrFields(names: seq<string>)
    requires |names| >= 1 && ModelsStr(names).Some?
    ensures |Split(ModelsStr(names).value, '_')| == |names|
  {
    ModelsStrSplits(names);
  }

}
