/** Per-query traversal overrides of a level index: for every depth,
    whether it is walked greedily, which matcher (if any) replaces the
    level's compiled one, the matcher code and the level name. The four
    arrays are stored once and only read afterwards, so the object is a
    value here. */
module TraversalOverrides {
  import opened Wrappers
  import opened Plugins

  datatype IndexTraversalOverrides = IndexTraversalOverrides(
    greedinessMatrix: seq<bool>,
    overridenMatchers: seq<Option<Matcher>>,
    matcherCodes: seq<string>,
    levelNames: seq<string>)
  {
    /** Whether the level at this depth is traversed with the greedy inspector. */
    function IsGreedy(levelDepth: nat): bool
      requires levelDepth < |greedinessMatrix|
    {
      greedinessMatrix[levelDepth]
    }

    /** Whether a matcher override is present at this depth. */
    predicate OverrideMatcher(levelDepth: nat)
      requires levelDepth < |overridenMatchers|
    {
      overridenMatchers[levelDepth] != None
    }

    /** The overriding matcher at this depth; None stands for Java's null. */
    function OverridenMatcher(levelDepth: nat): Option<Matcher>
      requires levelDepth < |overridenMatchers|
    {
      overridenMatchers[levelDepth]
    }

    function MatcherCode(levelDepth: nat): string
      requires levelDepth < |matcherCodes|
    {
      matcherCodes[levelDepth]
    }

    function LevelName(levelDepth: nat): string
      requires levelDepth < |levelNames|
    {
      levelNames[levelDepth]
    }
  }

  /** The constructor keeps the four arrays as given, and every accessor
      reads the element of its own array at the requested depth. */
  lemma ConstructorStoresArrays(greediness: seq<bool>, matchers: seq<Option<Matcher>>,
                                codes: seq<string>, names: seq<string>)
    ensures var o := IndexTraversalOverrides(greediness, matchers, codes, names);
      && o.greedinessMatrix == greediness && o.overridenMatchers == matchers
      && o.matcherCodes == codes && o.levelNames == names
      && (forall d :: 0 <= d < |greediness| ==> o.IsGreedy(d) == greediness[d])
      && (forall d :: 0 <= d < |matchers| ==> o.OverridenMatcher(d) == matchers[d])
      && (forall d :: 0 <= d < |codes| ==> o.MatcherCode(d) == codes[d])
      && (forall d :: 0 <= d < |names| ==> o.LevelName(d) == names[d])
  {
  }

  /** A matcher is overridden at a depth exactly when the stored override is
      non-null, and then the override is that stored matcher. */
  lemma OverrideMatcherIffPresent(o: IndexTraversalOverrides, levelDepth: nat)
    requires levelDepth < |o.overridenMatchers|
    ensures o.OverrideMatcher(levelDepth) <==> o.OverridenMatcher(levelDepth).Some?
    ensures !o.OverrideMatcher(levelDepth) ==> o.OverridenMatcher(levelDepth) == None
    ensures o.OverrideMatcher(levelDepth) ==> o.OverridenMatcher(levelDepth) == Some(o.overridenMatchers[levelDepth].value)
  {
  }
}
