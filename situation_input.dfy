/** The situation form (frontend/src/components/SituationInput.tsx): a text
    field whose state is replaced on every change, a submit handler that
    passes on the trimmed text only when it is non-empty, and the
    disabled and counter rules of the form's controls. */
module SituationInput {
  import Text
  import opened Wrappers

  /** The figure the counter shows after the slash; nothing enforces it. */
  const CounterLimit: nat := 1000

  /** What `handleSubmit` hands to `onSubmit`: the trimmed text, or nothing
      when the trimmed text is empty. */
  function SubmitArgument(situation: string): (r: Option<string>)
    ensures r.None? <==> Text.AllSpace(situation)
    ensures r.Some? ==> r.value != [] && !Text.IsSpace(r.value[0]) && !Text.IsSpace(r.value[|r.value| - 1])
    ensures r.Some? ==> r.value == Text.Strip(situation) && Text.Strip(r.value) == r.value
  {
    Text.StripEmptyIff(situation);
    Text.StripSpec(situation);
    Text.StripIdempotent(situation);
    if Text.Strip(situation) != [] then Some(Text.Strip(situation)) else None
  }

  /** The submit button's `disabled` attribute. */
  predicate SubmitDisabled(situation: string, isLoading: bool) {
    Text.Strip(situation) == [] || isLoading
  }

  /** The textarea's `disabled` attribute. */
  predicate TextareaDisabled(isLoading: bool) {
    isLoading
  }

  /** JavaScript's `length` of a string: its UTF-16 code units, one per
      character of the Basic Multilingual Plane and two (a surrogate pair)
      per character above it. */
  function Utf16Length(s: string): (n: nat)
    ensures |s| <= n <= 2 * |s|
    ensures n == |s| <==> forall i :: 0 <= i < |s| ==> s[i] < '\U{10000}'
  {
    if s == [] then 0
    else Utf16Length(s[..|s| - 1]) + (if s[|s| - 1] < '\U{10000}' then 1 else 2)
  }

  /** The counter under the textarea: the untrimmed length in UTF-16 code
      units, over 1000. */
  function Counter(situation: string): (shown: (nat, nat))
    ensures shown.0 == Utf16Length(situation) && shown.1 == CounterLimit
    ensures |situation| <= shown.0 <= 2 * |situation|
  {
    (Utf16Length(situation), CounterLimit)
  }

  /** The button is disabled exactly when loading or when a submit would
      pass nothing on: whitespace-only text never reaches `onSubmit`. */
  lemma SubmitDisabledIff(situation: string, isLoading: bool)
    ensures SubmitDisabled(situation, isLoading) <==> isLoading || SubmitArgument(situation).None?
    ensures SubmitDisabled(situation, isLoading) <==> isLoading || Text.AllSpace(situation)
  {
    Text.StripEmptyIff(situation);
  }

  /** While loading, both controls are locked; otherwise the textarea is
      editable and only a whitespace-only text keeps the button disabled. */
  lemma LoadingLocksForm(situation: string, isLoading: bool)
    ensures isLoading ==> TextareaDisabled(isLoading) && SubmitDisabled(situation, isLoading)
    ensures !isLoading ==> !TextareaDisabled(isLoading) && (SubmitDisabled(situation, isLoading) <==> Text.AllSpace(situation))
  {
    Text.StripEmptyIff(situation);
  }

  /** Trimming what was submitted once more changes nothing, and leading or
      trailing whitespace in the field does not change what is submitted. */
  lemma SubmitIgnoresSurroundingSpace(situation: string, pad1: string, pad2: string)
    requires Text.AllSpace(pad1) && Text.AllSpace(pad2)
    ensures SubmitArgument(pad1 + situation + pad2) == SubmitArgument(situation)
  {
    StripPadded(situation, pad1, pad2);
    Text.StripEmptyIff(situation);
    Text.StripEmptyIff(pad1 + situation + pad2);
  }

  lemma StripPadded(s: string, pad1: string, pad2: string)
    requires Text.AllSpace(pad1) && Text.AllSpace(pad2)
    ensures Text.Strip(pad1 + s + pad2) == Text.Strip(s)
  {
    var p, q := StripDecompose(s);
    AllSpaceConcat(pad1, p);
    AllSpaceConcat(q, pad2);
    Regroup(pad1, p, Text.Strip(s), q, pad2);
    StripUnique(pad1 + s + pad2, pad1 + p, Text.Strip(s), q + pad2);
  }

  /** A text is its leading whitespace, its stripped form and its trailing
      whitespace. */
  lemma StripDecompose(s: string) returns (p: string, q: string)
    ensures s == p + Text.Strip(s) + q && Text.AllSpace(p) && Text.AllSpace(q)
    ensures Text.Strip(s) != [] ==> !Text.IsSpace(Text.Strip(s)[0]) && !Text.IsSpace(Text.Strip(s)[|Text.Strip(s)| - 1])
  {
    Text.StripSpec(s);
    var a := Text.SkipSpace(s, 0);
    var b := Text.BackOverSpace(s, a, |s|);
    p, q := s[0..a], s[b..|s|];
    assert s == s[0..a] + s[a..b] + s[b..|s|];
  }

  lemma Regroup(a: string, b: string, c: string, d: string, e: string)
    ensures a + (b + c + d) + e == (a + b) + c + (d + e)
  {
  }

  lemma AllSpaceConcat(x: string, y: string)
    requires Text.AllSpace(x) && Text.AllSpace(y)
    ensures Text.AllSpace(x + y)
  {
    forall i | 0 <= i < |x + y| ensures Text.IsSpace((x + y)[i]) {
      if i >= |x| {
        assert (x + y)[i] == y[i - |x|];
      }
    }
  }

  /** Whatever the whitespace around a text with non-space ends, stripping
      yields that text. */
  lemma StripUnique(s: string, x: string, m: string, y: string)
    requires s == x + m + y && Text.AllSpace(x) && Text.AllSpace(y)
    requires m != [] ==> !Text.IsSpace(m[0]) && !Text.IsSpace(m[|m| - 1])
    ensures Text.Strip(s) == m
  {
    if m == [] {
      assert s == x + y;
      AllSpaceConcat(x, y);
      Text.StripEmptyIff(s);
    } else {
      forall i | 0 <= i < |x| ensures Text.IsSpace(s[i]) {
        assert s[i] == x[i];
      }
      assert s[|x|] == m[0];
      SkipSpaceIs(s, |x|);
      forall i | |x| + |m| <= i < |s| ensures Text.IsSpace(s[i]) {
        assert s[i] == y[i - |x| - |m|];
      }
      assert s[|x| + |m| - 1] == m[|m| - 1];
      BackOverSpaceIs(s, |x|, |x| + |m|);
      assert s[|x|..|x| + |m|] == m;
    }
  }

  /** `SkipSpace` stops at the first non-space character. */
  lemma SkipSpaceIs(s: string, j: nat)
    requires j < |s| && !Text.IsSpace(s[j])
    requires forall i :: 0 <= i < j ==> Text.IsSpace(s[i])
    ensures Text.SkipSpace(s, 0) == j
  {
    var k := Text.SkipSpace(s, 0);
  }

  /** `BackOverSpace` stops after the last non-space character. */
  lemma BackOverSpaceIs(s: string, lo: nat, j: nat)
    requires lo < j <= |s| && !Text.IsSpace(s[j - 1])
    requires forall i :: j <= i < |s| ==> Text.IsSpace(s[i])
    ensures Text.BackOverSpace(s, lo, |s|) == j
  {
    var k := Text.BackOverSpace(s, lo, |s|);
  }

  /** The form's state: the text typed so far. */
  class SituationForm {
    var situation: string

    constructor()
      ensures situation == []
    {
      situation := [];
    }

    /** `onChange`: the field takes the new value as it is; no length cap
        is applied. */
    method Change(value: string)
      modifies this
      ensures situation == value
    {
      situation := value;
    }

    /** `handleSubmit`: the argument of the `onSubmit` call it makes, if
        any; the field itself is left as it is. */
    method Submit() returns (arg: Option<string>)
      ensures arg == SubmitArgument(situation)
    {
      var trimmed := Text.Strip(situation);
      if trimmed != [] {
        arg := Some(trimmed);
      } else {
        arg := None;
      }
    }
  }
}
