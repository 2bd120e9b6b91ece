/** The two categorical encodings the app applies to a form submission:
    label encoding (a value's position in a fitted encoder's vocabulary)
    and frequency encoding (a value's training count). Only the observable
    behaviour of scikit-learn's LabelEncoder is modelled, not its internals. */
module Encoders {
  import opened Wrappers
  import opened Seqs

  /** A fitted label encoder as the app sees it: its vocabulary `classes_`,
      the category values seen in training. */
  datatype LabelEncoder = LabelEncoder(classes: seq<string>) {

    /** Fitting lists every category value once. */
    predicate Fitted() {
      Distinct(classes)
    }

    /** `transform([v])[0]`: the position of `v` in the vocabulary; `None`
        stands for the exception raised on a value the encoder has not seen. */
    function Transform(v: string): (r: Option<nat>)
      ensures r.Some? <==> v in classes
      ensures r.Some? ==> r.value < |classes| && classes[r.value] == v
    {
      IndexOf(classes, v)
    }
  }

  /** The first position of `v` in `s`, or `None` when `v` does not occur. */
  function IndexOf(s: seq<string>, v: string): (r: Option<nat>)
    ensures r.Some? <==> v in s
    ensures r.Some? ==> r.value < |s| && s[r.value] == v
    ensures r.Some? ==> forall j :: 0 <= j < r.value ==> s[j] != v
  {
    if |s| == 0 then None
    else if s[0] == v then Some(0)
    else match IndexOf(s[1..], v)
      case None => None
      case Some(i) => Some(i + 1)
  }

  /** Encoding a vocabulary entry gives back its position. */
  lemma TransformOfClass(e: LabelEncoder, i: nat)
    requires e.Fitted() && i < |e.classes|
    ensures e.Transform(e.classes[i]) == Some(i)
  {
  }

  /** Label encoding never merges two known values. */
  lemma TransformInjective(e: LabelEncoder, v: string, w: string)
    requires e.Transform(v).Some? && e.Transform(v) == e.Transform(w)
    ensures v == w
  {
  }

  /** `table.get(v, 1)`: the training count of `v`, or 1 for a value the
      table has no count for. */
  function FrequencyOf(table: map<string, int>, v: string): (r: int)
    ensures v in table ==> r == table[v]
    ensures v !in table ==> r == 1
  {
    if v in table then table[v] else 1
  }
}
