/** Condition effects of a custom node resource: a QoS level and a taint effect
    joined by "/" (pkg/utils/eviction.go). */
module ConditionEffect {

  import opened Wrappers

  const Separator: char := '/'

  /** The number of separators in s. */
  function SeparatorCount(s: string): nat {
    if s == [] then 0 else (if s[0] == Separator then 1 else 0) + SeparatorCount(s[1..])
  }

  /** strings.Split(s, "/"): the pieces between separators, always at least one. */
  function Split(s: string): (parts: seq<string>)
    ensures |parts| >= 1
  {
    if s == [] then [""]
    else if s[0] == Separator then [""] + Split(s[1..])
    else
      var rest := Split(s[1..]);
      [[s[0]] + rest[0]] + rest[1..]
  }

  /** The pieces joined back with separators. */
  function Join(parts: seq<string>): string
    requires |parts| >= 1
  {
    if |parts| == 1 then parts[0] else parts[0] + [Separator] + Join(parts[1..])
  }

  /** Splitting yields one more piece than there are separators, no piece contains a
      separator, and joining the pieces gives back the input. */
  lemma {:induction false} SplitJoin(s: string)
    ensures |Split(s)| == SeparatorCount(s) + 1
    ensures forall i :: 0 <= i < |Split(s)| ==> Separator !in Split(s)[i]
    ensures Join(Split(s)) == s
  {
    if s != [] {
      SplitJoin(s[1..]);
      var rest := Split(s[1..]);
      if s[0] == Separator {
        assert Split(s)[1..] == rest;
        assert s == [s[0]] + s[1..];
      } else {
        var parts := Split(s);
        assert parts[1..] == rest[1..];
        forall i | 0 <= i < |parts| ensures Separator !in parts[i] {
          if i > 0 { assert parts[i] == rest[i]; }
        }
        if |rest| == 1 {
          assert s == [s[0]] + rest[0];
        } else {
          assert rest[1..][1..] == rest[2..];
          assert Join(rest) == rest[0] + [Separator] + Join(rest[1..]);
          assert s == [s[0]] + s[1..];
        }
      }
    }
  }

  lemma {:induction false} SplitOfSeparatorFree(s: string)
    requires Separator !in s
    ensures Split(s) == [s]
    decreases |s|
  {
    if s != [] {
      SplitOfSeparatorFree(s[1..]);
      assert s == [s[0]] + s[1..];
    }
  }

  lemma {:induction false} SplitConcat(level: string, effect: string)
    requires Separator !in level
    ensures Split(level + [Separator] + effect) == [level] + Split(effect)
    decreases |level|
  {
    if level == [] {
      assert level + [Separator] + effect == [Separator] + effect;
      assert ([Separator] + effect)[1..] == effect;
    } else {
      var s := level + [Separator] + effect;
      assert s[1..] == level[1..] + [Separator] + effect;
      SplitConcat(level[1..], effect);
      assert [level[0]] + level[1..] == level;
    }
  }

  datatype Parsed = Parsed(level: string, effect: string, err: Option<string>)

  /** ParseConditionEffect: the level and the effect around the single separator, or
      two empty strings and an error when the input does not split into exactly two. */
  function ParseConditionEffect(s: string): (r: Parsed)
    ensures r.err.None? <==> SeparatorCount(s) == 1
    ensures r.err.Some? ==> r == Parsed("", "", Some("invalid condition effect: " + s))
    ensures r.err.None? ==>
      s == r.level + [Separator] + r.effect && Separator !in r.level && Separator !in r.effect
  {
    SplitJoin(s);
    var parts := Split(s);
    if |parts| != 2 then Parsed("", "", Some("invalid condition effect: " + s))
    else
      assert Join(parts) == parts[0] + [Separator] + Join(parts[1..]);
      Parsed(parts[0], parts[1], None)
  }

  /** GenerateConditionEffect */
  function GenerateConditionEffect(level: string, effect: string): (s: string)
    ensures |s| == |level| + 1 + |effect|
    ensures s[..|level|] == level && s[|level|] == Separator && s[|level| + 1..] == effect
  {
    level + [Separator] + effect
  }

  /** Generating then parsing gives back a level and an effect free of separators. */
  lemma ParseGenerate(level: string, effect: string)
    requires Separator !in level && Separator !in effect
    ensures ParseConditionEffect(GenerateConditionEffect(level, effect)) == Parsed(level, effect, None)
  {
    SplitConcat(level, effect);
    SplitOfSeparatorFree(effect);
  }

  /** Parsing then generating gives back any input that parses. */
  lemma GenerateParse(s: string)
    requires ParseConditionEffect(s).err.None?
    ensures GenerateConditionEffect(ParseConditionEffect(s).level, ParseConditionEffect(s).effect) == s
  {
  }
}
