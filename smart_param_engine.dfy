/** The engine's query path: resolve a prepared parameter by name, make
    sure the context holds level values (deriving them from the levels'
    creator functions when it holds none), check their count, normalize
    them, answer from the parameter's index (cacheable parameters) or from
    the preparer's linear lookup (the others), and apply the nullable /
    not-found policy. `callEvaluatedFunction` then treats a string result
    as the name of a function to call.

    The collaborators (parameter preparer, function manager, value
    factory, input normalizer, the fast index walker and a value's holder)
    are not part of this model; they are parameters, bundled in
    Collaborators. Java objects, prepared entries, functions and the
    values the factory builds are abstract types. */
module Engine {
  import opened Wrappers
  import LevelIndexWalk

  /** A non-null Java object, as a level value, a function argument or a result. */
  type Obj(==)

  /** A prepared row of a parameter. */
  type PreparedEntry(==)

  /** A Function bound to a level as its level creator. */
  type FunctionRef(==)

  /** What the parameter value factory builds from the found rows. */
  type ProducedValue(==)

  /** A failure raised by the function manager (unknown function, invocation error). */
  type FunctionFault(==)

  /** A Java reference that may be null. */
  datatype Value = Null | Object(obj: Obj)

  datatype PreparedLevel = PreparedLevel(name: string, levelCreator: Option<FunctionRef>)

  datatype ParameterShape = ParameterShape(
    name: string,
    levels: seq<PreparedLevel>,
    inputLevelsCount: nat,
    nullable: bool,
    cacheable: bool,
    index: Option<LevelIndexWalk.LevelIndex<PreparedEntry>>)

  /** A prepared parameter as the preparer hands it out: its input levels are
      among its levels, and a cacheable parameter has an index. */
  type PreparedParameter = p: ParameterShape | p.inputLevelsCount <= |p.levels| && (p.cacheable ==> p.index.Some?)
    witness ParameterShape("", [], 0, false, false, None)

  /** The result of `get`: the empty value, or what the factory built. */
  datatype ParamValue = EmptyValue | Created(produced: ProducedValue)

  /** The value holder of a result; every holder that is not a string holder,
      null included, is OtherHolder. */
  datatype ValueHolder = StringHolder(str: Option<string>) | OtherHolder

  datatype EngineError =
    | UnknownParameter(paramName: string)
    | ParameterValueNotFound(paramName: string, attributes: map<string, Value>, contextLevelValues: Option<seq<Value>>)
    | InvalidLevelValues(levelValues: seq<Value>, parameterLevelCount: nat)
    | UndefinedLevelCreator(levelIndex: nat)
    | InvalidFunctionToCall(paramName: string, holder: ValueHolder)
    | FunctionFailed(fault: FunctionFault)

  datatype ParamPreparer = ParamPreparer(
    getPreparedParameter: string -> Option<PreparedParameter>,
    findEntries: (string, seq<string>) -> Option<seq<PreparedEntry>>)

  datatype FunctionManager = FunctionManager(
    invokeByName: (string, seq<Value>) -> Result<Value, FunctionFault>,
    invokeOnContext: (FunctionRef, map<string, Value>) -> Result<Value, FunctionFault>)

  datatype Collaborators = Collaborators(
    paramPreparer: ParamPreparer,
    functionManager: FunctionManager,
    createValue: (PreparedParameter, seq<PreparedEntry>) -> ProducedValue,
    normalize: (PreparedParameter, seq<Value>) -> seq<string>,
    fastIndexWalker: (LevelIndexWalk.LevelIndex<PreparedEntry>, seq<string>) -> Option<seq<PreparedEntry>>,
    holderOf: ParamValue -> ValueHolder)

  /** The entries found together with the level values the context holds afterwards. */
  datatype Lookup = Lookup(entries: Result<seq<PreparedEntry>, EngineError>, levelValuesAfter: Option<seq<Value>>)

  /** The result of a query together with the level values the context holds afterwards. */
  datatype Answer<T> = Answer(result: Result<T, EngineError>, levelValuesAfter: Option<seq<Value>>)

  /** The per-query context: its named attributes and, once known, its level values. */
  class ParamContext {
    const attributes: map<string, Value>
    var levelValues: Option<seq<Value>>

    constructor (attributes: map<string, Value>, levelValues: Option<seq<Value>>)
      ensures this.attributes == attributes && this.levelValues == levelValues
    {
      this.attributes := attributes;
      this.levelValues := levelValues;
    }
  }

  /** An unknown name, for which the preparer returns null, is an error. */
  function GetPreparedParameter(c: Collaborators, paramName: string): (r: Result<PreparedParameter, EngineError>)
    ensures r.Failure? <==> c.paramPreparer.getPreparedParameter(paramName).None?
    ensures r.Failure? ==> r.error == UnknownParameter(paramName)
    ensures r.Success? ==> c.paramPreparer.getPreparedParameter(paramName) == Some(r.value)
  {
    match c.paramPreparer.getPreparedParameter(paramName)
    case None => Failure(UnknownParameter(paramName))
    case Some(param) => Success(param)
  }

  /** A level-value vector passes exactly when its length is the parameter's level count. */
  function ValidateLevelValues(levelValues: seq<Value>, parameterLevelCount: nat): (r: Outcome<EngineError>)
    ensures r.Pass? <==> |levelValues| == parameterLevelCount
    ensures r.Fail? ==> r.error == InvalidLevelValues(levelValues, parameterLevelCount)
  {
    if |levelValues| != parameterLevelCount then Fail(InvalidLevelValues(levelValues, parameterLevelCount)) else Pass
  }

  /** What evaluating one level gives: an error when it has no creator,
      otherwise the creator's result on the context's attributes. */
  function CreatorResult(c: Collaborators, param: PreparedParameter, attributes: map<string, Value>, levelIndex: nat)
    : Result<Value, EngineError>
    requires levelIndex < param.inputLevelsCount
  {
    match param.levels[levelIndex].levelCreator
    case None => Failure(UndefinedLevelCreator(levelIndex))
    case Some(creator) =>
      match c.functionManager.invokeOnContext(creator, attributes)
      case Success(v) => Success(v)
      case Failure(fault) => Failure(FunctionFailed(fault))
  }

  /** Evaluating the levels from `from` on, in order: the values of all of
      them when every one succeeds, otherwise the error of the first that fails. */
  function EvaluateLevelValuesFrom(c: Collaborators, param: PreparedParameter, attributes: map<string, Value>, from: nat)
    : (r: Result<seq<Value>, EngineError>)
    requires from <= param.inputLevelsCount
    ensures r.Success? <==> forall j :: from <= j < param.inputLevelsCount ==> CreatorResult(c, param, attributes, j).Success?
    ensures r.Success? ==> |r.value| == param.inputLevelsCount - from
    ensures r.Success? ==> forall j :: from <= j < param.inputLevelsCount ==>
                             CreatorResult(c, param, attributes, j) == Success(r.value[j - from])
    ensures r.Failure? ==> exists i :: from <= i < param.inputLevelsCount
                             && (forall j :: from <= j < i ==> CreatorResult(c, param, attributes, j).Success?)
                             && CreatorResult(c, param, attributes, i) == Failure(r.error)
    decreases param.inputLevelsCount - from
  {
    if from == param.inputLevelsCount then Success([])
    else
      match CreatorResult(c, param, attributes, from)
      case Failure(e) => Failure(e)
      case Success(v) =>
        match EvaluateLevelValuesFrom(c, param, attributes, from + 1)
        case Failure(e) => Failure(e)
        case Success(rest) => Success([v] + rest)
  }

  /** The level values derived for a context that holds none. */
  function EvaluatedLevelValues(c: Collaborators, param: PreparedParameter, attributes: map<string, Value>)
    : Result<seq<Value>, EngineError>
  {
    EvaluateLevelValuesFrom(c, param, attributes, 0)
  }

  /** The evaluation stops at the first level that fails, with that level's error. */
  lemma EvaluationFailsAtFirstFailure(c: Collaborators, param: PreparedParameter, attributes: map<string, Value>, i: nat)
    requires i < param.inputLevelsCount
    requires forall j :: 0 <= j < i ==> CreatorResult(c, param, attributes, j).Success?
    requires CreatorResult(c, param, attributes, i).Failure?
    ensures EvaluatedLevelValues(c, param, attributes) == Failure(CreatorResult(c, param, attributes, i).error)
  {
    var r := EvaluatedLevelValues(c, param, attributes);
    assert !CreatorResult(c, param, attributes, i).Success?;
    assert r.Failure?;
    var i' :| 0 <= i' < param.inputLevelsCount
              && (forall j :: 0 <= j < i' ==> CreatorResult(c, param, attributes, j).Success?)
              && CreatorResult(c, param, attributes, i') == Failure(r.error);
    assert i' == i;
  }

  /** A level without a creator, reached after every earlier level was
      evaluated, makes the evaluation fail with that level's index. */
  lemma UndefinedLevelCreatorAtFirstMissing(c: Collaborators, param: PreparedParameter, attributes: map<string, Value>, i: nat)
    requires i < param.inputLevelsCount && param.levels[i].levelCreator.None?
    requires forall j :: 0 <= j < i ==> CreatorResult(c, param, attributes, j).Success?
    ensures EvaluatedLevelValues(c, param, attributes) == Failure(UndefinedLevelCreator(i))
  {
    EvaluationFailsAtFirstFailure(c, param, attributes, i);
  }

  function OrEmpty(entries: Option<seq<PreparedEntry>>): seq<PreparedEntry>
  {
    match entries
    case None => []
    case Some(found) => found
  }

  /** A cacheable parameter is answered by walking its index, another by the
      preparer's lookup; a null answer is no entries. */
  function FindEntriesForValues(c: Collaborators, param: PreparedParameter, levelValues: seq<string>): seq<PreparedEntry>
  {
    if param.cacheable then OrEmpty(c.fastIndexWalker(param.index.value, levelValues))
    else OrEmpty(c.paramPreparer.findEntries(param.name, levelValues))
  }

  /** Exactly one source answers: the index walker for a cacheable parameter
      (whatever the preparer's lookup would say), the preparer's lookup for
      another (whatever the walker would say); a null answer is no entries,
      any other answer is taken as it is. */
  lemma EntriesComeFromOneSource(c: Collaborators, param: PreparedParameter, levelValues: seq<string>,
                                 findEntries: (string, seq<string>) -> Option<seq<PreparedEntry>>,
                                 fastIndexWalker: (LevelIndexWalk.LevelIndex<PreparedEntry>, seq<string>) -> Option<seq<PreparedEntry>>)
    ensures param.cacheable ==>
              FindEntriesForValues(c.(paramPreparer := c.paramPreparer.(findEntries := findEntries)), param, levelValues)
              == FindEntriesForValues(c, param, levelValues)
    ensures !param.cacheable ==>
              FindEntriesForValues(c.(fastIndexWalker := fastIndexWalker), param, levelValues)
              == FindEntriesForValues(c, param, levelValues)
    ensures var answer := if param.cacheable then c.fastIndexWalker(param.index.value, levelValues)
                          else c.paramPreparer.findEntries(param.name, levelValues);
      && (answer.None? ==> FindEntriesForValues(c, param, levelValues) == [])
      && (answer.Some? ==> FindEntriesForValues(c, param, levelValues) == answer.value)
  {
  }

  /** Finding the entries for a context whose level values are `levelValues`
      (None: the context holds none). */
  function FindParameterEntriesSpec(c: Collaborators, param: PreparedParameter, attributes: map<string, Value>,
                                    levelValues: Option<seq<Value>>): Lookup
  {
    var resolved := match levelValues
      case Some(values) => Success(values)
      case None => EvaluatedLevelValues(c, param, attributes);
    match resolved
    case Failure(e) => Lookup(Failure(e), levelValues)
    case Success(values) =>
      match ValidateLevelValues(values, param.inputLevelsCount)
      case Fail(e) => Lookup(Failure(e), Some(values))
      case Pass => Lookup(Success(FindEntriesForValues(c, param, c.normalize(param, values))), Some(values))
  }

  /** The answer of `get` for a context with these attributes and level values. */
  function GetSpec(c: Collaborators, paramName: string, attributes: map<string, Value>, levelValues: Option<seq<Value>>)
    : Answer<ParamValue>
  {
    match GetPreparedParameter(c, paramName)
    case Failure(e) => Answer(Failure(e), levelValues)
    case Success(param) =>
      var lookup := FindParameterEntriesSpec(c, param, attributes, levelValues);
      match lookup.entries
      case Failure(e) => Answer(Failure(e), lookup.levelValuesAfter)
      case Success(rows) =>
        if |rows| == 0 then
          if param.nullable then Answer(Success(EmptyValue), lookup.levelValuesAfter)
          else Answer(Failure(ParameterValueNotFound(paramName, attributes, lookup.levelValuesAfter)), lookup.levelValuesAfter)
        else Answer(Success(Created(c.createValue(param, rows))), lookup.levelValuesAfter)
  }

  /** Calling a function by name is the function manager's invocation. */
  function CallFunctionSpec(c: Collaborators, functionName: string, args: seq<Value>): (r: Result<Value, EngineError>)
    ensures r.Success? <==> c.functionManager.invokeByName(functionName, args).Success?
    ensures r.Success? ==> r.value == c.functionManager.invokeByName(functionName, args).value
    ensures r.Failure? ==> r.error == FunctionFailed(c.functionManager.invokeByName(functionName, args).error)
  {
    match c.functionManager.invokeByName(functionName, args)
    case Success(v) => Success(v)
    case Failure(fault) => Failure(FunctionFailed(fault))
  }

  /** The answer of `callEvaluatedFunction`. */
  function CallEvaluatedFunctionSpec(c: Collaborators, paramName: string, attributes: map<string, Value>,
                                     levelValues: Option<seq<Value>>, args: seq<Value>): Answer<Value>
  {
    var answer := GetSpec(c, paramName, attributes, levelValues);
    match answer.result
    case Failure(e) => Answer(Failure(e), answer.levelValuesAfter)
    case Success(value) =>
      match c.holderOf(value)
      case OtherHolder => Answer(Failure(InvalidFunctionToCall(paramName, OtherHolder)), answer.levelValuesAfter)
      case StringHolder(None) => Answer(Success(Null), answer.levelValuesAfter)
      case StringHolder(Some(functionName)) => Answer(CallFunctionSpec(c, functionName, args), answer.levelValuesAfter)
  }

  /** An unknown parameter name is an error before anything else happens: the
      context keeps its level values, and an evaluated call fails the same way. */
  lemma UnknownParameterRaises(c: Collaborators, paramName: string, attributes: map<string, Value>,
                               levelValues: Option<seq<Value>>, args: seq<Value>)
    requires c.paramPreparer.getPreparedParameter(paramName).None?
    ensures GetSpec(c, paramName, attributes, levelValues) == Answer(Failure(UnknownParameter(paramName)), levelValues)
    ensures CallEvaluatedFunctionSpec(c, paramName, attributes, levelValues, args)
            == Answer(Failure(UnknownParameter(paramName)), levelValues)
  {
  }

  /** Looking entries up fails only with an invalid level-value count, an
      undefined level creator or a failing creator, never with "not found". */
  lemma LookupErrors(c: Collaborators, param: PreparedParameter, attributes: map<string, Value>, levelValues: Option<seq<Value>>)
    ensures var entries := FindParameterEntriesSpec(c, param, attributes, levelValues).entries;
      entries.Failure? ==> entries.error.InvalidLevelValues? || entries.error.UndefinedLevelCreator? || entries.error.FunctionFailed?
  {
    if levelValues.None? {
      var evaluated := EvaluatedLevelValues(c, param, attributes);
      if evaluated.Failure? {
        var i :| 0 <= i < param.inputLevelsCount && CreatorResult(c, param, attributes, i) == Failure(evaluated.error);
      }
    }
  }

  /** With no rows found, a nullable parameter answers the empty value and a
      non-nullable one raises "not found"; "not found" is raised in no other case. */
  lemma NotFoundExactlyWhenNonNullableWithoutRows(c: Collaborators, paramName: string, attributes: map<string, Value>,
                                                  levelValues: Option<seq<Value>>)
    ensures var prepared := c.paramPreparer.getPreparedParameter(paramName);
      var answer := GetSpec(c, paramName, attributes, levelValues);
      answer.result == Failure(ParameterValueNotFound(paramName, attributes, answer.levelValuesAfter))
      <==> prepared.Some? && !prepared.value.nullable
           && FindParameterEntriesSpec(c, prepared.value, attributes, levelValues).entries == Success([])
    ensures var prepared := c.paramPreparer.getPreparedParameter(paramName);
      prepared.Some? && prepared.value.nullable
      && FindParameterEntriesSpec(c, prepared.value, attributes, levelValues).entries == Success([])
      ==> GetSpec(c, paramName, attributes, levelValues).result == Success(EmptyValue)
  {
    var prepared := c.paramPreparer.getPreparedParameter(paramName);
    if prepared.Some? {
      LookupErrors(c, prepared.value, attributes, levelValues);
    }
  }

  /** A nullable parameter never raises "not found". */
  lemma NullableNeverNotFound(c: Collaborators, paramName: string, attributes: map<string, Value>,
                              levelValues: Option<seq<Value>>)
    requires c.paramPreparer.getPreparedParameter(paramName).Some?
    requires c.paramPreparer.getPreparedParameter(paramName).value.nullable
    ensures !GetSpec(c, paramName, attributes, levelValues).result.Failure?
            || !GetSpec(c, paramName, attributes, levelValues).result.error.ParameterValueNotFound?
  {
    LookupErrors(c, c.paramPreparer.getPreparedParameter(paramName).value, attributes, levelValues);
  }

  /** Level values already in the context are used as they are: no creator is
      consulted (the function manager and the attributes play no part) and the
      context keeps them. */
  lemma ExistingLevelValuesUsedAsIs(c: Collaborators, functionManager: FunctionManager, param: PreparedParameter,
                                    attributes: map<string, Value>, otherAttributes: map<string, Value>, values: seq<Value>)
    ensures FindParameterEntriesSpec(c.(functionManager := functionManager), param, otherAttributes, Some(values))
            == FindParameterEntriesSpec(c, param, attributes, Some(values))
    ensures FindParameterEntriesSpec(c, param, attributes, Some(values)).levelValuesAfter == Some(values)
  {
  }

  /** A context without level values gets the evaluated ones stored; they always
      have the right count, so the lookup then proceeds with them. When the
      evaluation fails, the context still holds none. */
  lemma EvaluatedLevelValuesAreStoredAndValid(c: Collaborators, param: PreparedParameter, attributes: map<string, Value>)
    ensures var evaluated := EvaluatedLevelValues(c, param, attributes);
      evaluated.Success? ==>
        FindParameterEntriesSpec(c, param, attributes, None)
        == Lookup(Success(FindEntriesForValues(c, param, c.normalize(param, evaluated.value))), Some(evaluated.value))
    ensures var evaluated := EvaluatedLevelValues(c, param, attributes);
      evaluated.Failure? ==> FindParameterEntriesSpec(c, param, attributes, None) == Lookup(Failure(evaluated.error), None)
  {
  }

  /** A level-value vector of the wrong length raises InvalidLevelValues before
      any lookup: whether the parameter is cacheable, and what the index walker,
      the preparer's lookup and the normalizer would answer, make no difference. */
  lemma LevelCountMismatchRaises(c: Collaborators, paramName: string, param: PreparedParameter,
                                 attributes: map<string, Value>, values: seq<Value>,
                                 findEntries: (string, seq<string>) -> Option<seq<PreparedEntry>>,
                                 fastIndexWalker: (LevelIndexWalk.LevelIndex<PreparedEntry>, seq<string>) -> Option<seq<PreparedEntry>>,
                                 normalize: (PreparedParameter, seq<Value>) -> seq<string>)
    requires c.paramPreparer.getPreparedParameter(paramName) == Some(param)
    requires |values| != param.inputLevelsCount
    ensures var c' := c.(paramPreparer := c.paramPreparer.(findEntries := findEntries),
                         fastIndexWalker := fastIndexWalker, normalize := normalize);
      GetSpec(c', paramName, attributes, Some(values))
      == Answer(Failure(InvalidLevelValues(values, param.inputLevelsCount)), Some(values))
  {
  }

  /** An evaluated call fails like `get` when `get` fails, fails with
      InvalidFunctionToCall when the holder is not a string holder, answers null
      for a null function name, and is otherwise the call of the named function. */
  lemma CallEvaluatedFunctionCases(c: Collaborators, paramName: string, attributes: map<string, Value>,
                                   levelValues: Option<seq<Value>>, args: seq<Value>)
    ensures var answer := GetSpec(c, paramName, attributes, levelValues);
      var call := CallEvaluatedFunctionSpec(c, paramName, attributes, levelValues, args);
      && call.levelValuesAfter == answer.levelValuesAfter
      && (answer.result.Failure? ==> call.result == Failure(answer.result.error))
      && (answer.result.Success? && !c.holderOf(answer.result.value).StringHolder? ==>
            call.result == Failure(InvalidFunctionToCall(paramName, OtherHolder)))
      && (answer.result.Success? && c.holderOf(answer.result.value) == StringHolder(None) ==>
            call.result == Success(Null))
      && (answer.result.Success? && c.holderOf(answer.result.value).StringHolder?
          && c.holderOf(answer.result.value).str.Some? ==>
            call.result == CallFunctionSpec(c, c.holderOf(answer.result.value).str.value, args))
  {
  }

  /** The simple class names of the arguments, "null" for a null argument. */
  method ClassNames(args: seq<Value>, simpleName: Obj -> string) returns (names: seq<string>)
    ensures |names| == |args|
    ensures forall i :: 0 <= i < |args| ==> names[i] == if args[i].Null? then "null" else simpleName(args[i].obj)
  {
    var result := new string[|args|];
    for i := 0 to |args|
      invariant forall j :: 0 <= j < i ==> result[j] == if args[j].Null? then "null" else simpleName(args[j].obj)
    {
      result[i] := if args[i].Object? then simpleName(args[i].obj) else "null";
    }
    names := result[..];
  }

  class SmartParamEngine {
    const collaborators: Collaborators

    constructor (collaborators: Collaborators)
      ensures this.collaborators == collaborators
    {
      this.collaborators := collaborators;
    }

    /** Looks the parameter up for the context; may store derived level values in it. */
    method Get(paramName: string, ctx: ParamContext) returns (r: Result<ParamValue, EngineError>)
      modifies ctx
      ensures Answer(r, ctx.levelValues) == GetSpec(collaborators, paramName, ctx.attributes, old(ctx.levelValues))
    {
      var prepared := GetPreparedParameter(collaborators, paramName);
      if prepared.Failure? {
        return Failure(prepared.error);
      }
      var param := prepared.value;
      var rows := FindParameterEntries(param, ctx);
      if rows.Failure? {
        return Failure(rows.error);
      }
      if |rows.value| == 0 {
        if param.nullable {
          return Success(EmptyValue);
        }
        return Failure(ParameterValueNotFound(paramName, ctx.attributes, ctx.levelValues));
      }
      return Success(Created(collaborators.createValue(param, rows.value)));
    }

    /** Looks the parameter up for positional level values. */
    method GetByLevelValues(paramName: string, inputLevels: seq<Value>) returns (r: Result<ParamValue, EngineError>)
      ensures r == GetSpec(collaborators, paramName, map[], Some(inputLevels)).result
    {
      var ctx := new ParamContext(map[], Some(inputLevels));
      r := Get(paramName, ctx);
    }

    method CallFunction(functionName: string, args: seq<Value>) returns (r: Result<Value, EngineError>)
      ensures r == CallFunctionSpec(collaborators, functionName, args)
    {
      r := CallFunctionSpec(collaborators, functionName, args);
    }

    /** Looks the parameter up and calls the function its string holder names. */
    method CallEvaluatedFunction(paramName: string, ctx: ParamContext, args: seq<Value>) returns (r: Result<Value, EngineError>)
      modifies ctx
      ensures Answer(r, ctx.levelValues)
              == CallEvaluatedFunctionSpec(collaborators, paramName, ctx.attributes, old(ctx.levelValues), args)
    {
      var value := Get(paramName, ctx);
      if value.Failure? {
        return Failure(value.error);
      }
      var holder := collaborators.holderOf(value.value);
      if !holder.StringHolder? {
        return Failure(InvalidFunctionToCall(paramName, holder));
      }
      var functionName := holder.str;
      if functionName.Some? {
        r := CallFunction(functionName.value, args);
        return;
      }
      return Success(Null);
    }

    /** Derives the level values from the levels' creators, in level order, and
        stores them in the context; on an error the context is left as it was. */
    method EvaluateLevelValues(param: PreparedParameter, ctx: ParamContext) returns (outcome: Outcome<EngineError>)
      modifies ctx
      ensures match EvaluatedLevelValues(collaborators, param, ctx.attributes)
        case Success(values) => outcome == Pass && ctx.levelValues == Some(values)
        case Failure(e) => outcome == Fail(e) && ctx.levelValues == old(ctx.levelValues)
    {
      var levels := param.levels;
      var values := new Value[param.inputLevelsCount];
      for levelIndex := 0 to values.Length
        invariant forall j :: 0 <= j < levelIndex ==> CreatorResult(collaborators, param, ctx.attributes, j) == Success(values[j])
        invariant ctx.levelValues == old(ctx.levelValues)
      {
        var level := levels[levelIndex];
        if level.levelCreator.None? {
          UndefinedLevelCreatorAtFirstMissing(collaborators, param, ctx.attributes, levelIndex);
          return Fail(UndefinedLevelCreator(levelIndex));
        }
        var result := collaborators.functionManager.invokeOnContext(level.levelCreator.value, ctx.attributes);
        if result.Failure? {
          EvaluationFailsAtFirstFailure(collaborators, param, ctx.attributes, levelIndex);
          return Fail(FunctionFailed(result.error));
        }
        values[levelIndex] := result.value;
      }
      var evaluated := EvaluatedLevelValues(collaborators, param, ctx.attributes);
      assert evaluated.Success?;
      assert values[..] == evaluated.value by {
        forall j | 0 <= j < values.Length
          ensures values[..][j] == evaluated.value[j]
        {
          assert CreatorResult(collaborators, param, ctx.attributes, j) == Success(values[j]);
        }
      }
      ctx.levelValues := Some(values[..]);
      return Pass;
    }

    /** Makes sure the context holds level values, checks their count and finds the entries. */
    method FindParameterEntries(param: PreparedParameter, ctx: ParamContext) returns (r: Result<seq<PreparedEntry>, EngineError>)
      modifies ctx
      ensures Lookup(r, ctx.levelValues) == FindParameterEntriesSpec(collaborators, param, ctx.attributes, old(ctx.levelValues))
    {
      if ctx.levelValues.None? {
        var evaluation := EvaluateLevelValues(param, ctx);
        if evaluation.Fail? {
          return Failure(evaluation.error);
        }
      }
      var levelValues := ctx.levelValues.value;
      var validation := ValidateLevelValues(levelValues, param.inputLevelsCount);
      if validation.Fail? {
        return Failure(validation.error);
      }
      var normalizedInputValues := collaborators.normalize(param, levelValues);
      return Success(FindEntriesForValues(collaborators, param, normalizedInputValues));
    }
  }
}
