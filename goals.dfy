/** Level goals (src/common/goals.ts): a fixed table of goal templates, and
 *  the goal value a level stores, an id with a map of option values keyed
 *  by slug. */
module Goals {
  import opened Wrappers
  import opened Bytes

  /** One option a template offers, with its default value. */
  datatype GoalOption = GoalOption(slug: string, title: string, kind: string, default: string, min: string, max: string)

  /** A template; `options` is absent for a goal that takes none. */
  datatype GoalTemplate = GoalTemplate(name: string, options: Option<seq<GoalOption>>, exportData: seq<ExportField>)

  /** The `goals` table. */
  const Templates: seq<GoalTemplate> := [
    GoalTemplate("Reach Keycane", None, []),
    GoalTemplate("Collect \U{20A7}",
      Some([GoalOption("amount", "Amount", "number", "10000", "1", "99999")]),
      [ExportField(Uint32, "amount")])
  ]

  /** The `reduce` in `createGoal`: each option in turn sets its slug to its
   *  default, so a later option with the same slug wins; the defaults hold
   *  exactly the options' slugs. */
  function Defaults(opts: seq<GoalOption>): (r: map<string, string>)
    ensures r.Keys == Slugs(opts)
  {
    if opts == [] then map[]
    else
      var init := opts[..|opts| - 1];
      assert opts == init + [opts[|opts| - 1]];
      assert Slugs(opts) == Slugs(init) + {opts[|opts| - 1].slug};
      Defaults(init)[opts[|opts| - 1].slug := opts[|opts| - 1].default]
  }

  function Slugs(opts: seq<GoalOption>): set<string>
  {
    set o | o in opts :: o.slug
  }

  /** The value a slug gets is the default of the last option carrying it. */
  lemma {:induction false} DefaultsLastWins(opts: seq<GoalOption>, k: nat)
    requires k < |opts|
    requires forall l | k < l < |opts| :: opts[l].slug != opts[k].slug
    ensures opts[k].slug in Defaults(opts) && Defaults(opts)[opts[k].slug] == opts[k].default
  {
    if k < |opts| - 1 {
      var init := opts[..|opts| - 1];
      assert forall l | k < l < |init| :: init[l] == opts[l];
      DefaultsLastWins(init, k);
    }
  }

  /** The object `toJSON` returns. */
  datatype GoalJson = GoalJson(id: int, options: map<string, string>)

  /** A goal as `createGoal` returns it. */
  datatype Goal = Goal(id: int, options: map<string, string>)
  {
    /** `getOption`: the value of `slug`, or the source's error for a slug the
     *  goal does not have. */
    function GetOption(slug: string): (r: Result<string>)
      ensures r.Ok? <==> slug in options
      ensures r.Ok? ==> r.value == options[slug]
      ensures r.Err? ==> r.error == "Invalid goal option: " + slug
    {
      if slug !in options then Err("Invalid goal option: " + slug) else Ok(options[slug])
    }

    /** `updateOption`: a new goal of the same id in which `slug` reads as
     *  `value` and every other slug reads as before. */
    function UpdateOption(slug: string, value: string): (g: Goal)
      ensures g.id == id
      ensures g.GetOption(slug) == Ok(value)
      ensures forall s | s != slug :: g.GetOption(s) == GetOption(s)
    {
      CreateGoal(id, Some(options[slug := value]))
    }

    /** `toJSON`: the id and the options, which `createGoal` turns back into
     *  the same goal (see `ToJsonRoundTrip`). */
    function ToJson(): GoalJson
    {
      GoalJson(id, options)
    }
  }

  /** `createGoal`: the options given, or else the template's defaults, or
   *  none for a goal without options or an id outside the table. */
  function CreateGoal(id: int, options: Option<map<string, string>>): (g: Goal)
    ensures g.id == id
    ensures options.Some? ==> g.options == options.value
    ensures options.None? && 0 <= id < |Templates| && Templates[id].options.Some? ==>
      g.options.Keys == Slugs(Templates[id].options.value)
    ensures options.None? && !(0 <= id < |Templates| && Templates[id].options.Some?) ==> g.options == map[]
  {
    if options.Some? then Goal(id, options.value)
    else if 0 <= id < |Templates| && Templates[id].options.Some? then
      Goal(id, Defaults(Templates[id].options.value))
    else Goal(id, map[])
  }

  /** Reloading a goal from its JSON gives the same goal. */
  lemma {:induction false} ToJsonRoundTrip(g: Goal)
    ensures CreateGoal(g.ToJson().id, Some(g.ToJson().options)) == g
  {
  }

  /** Without options, goal 1 asks for 10000 of the currency and goal 0 for
   *  nothing; an id outside the table has no options. */
  lemma {:induction false} KnownGoals()
    ensures CreateGoal(1, None).GetOption("amount") == Ok("10000")
    ensures CreateGoal(1, None).options == map["amount" := "10000"]
    ensures CreateGoal(0, None).options == map[]
    ensures CreateGoal(2, None).GetOption("amount") == Err("Invalid goal option: amount")
  {
    var opts := Templates[1].options.value;
    assert opts == [GoalOption("amount", "Amount", "number", "10000", "1", "99999")];
    assert opts[..0] == [];
    assert Defaults(opts) == map["amount" := "10000"];
  }
}
