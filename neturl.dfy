/** The parts of Go's `net/url` that the query builders use. */
module NetUrl {

  /** `url.Values`: every key maps to its list of values. */
  type Query = map<string, seq<string>>

  /** A `url.URL` as the builders fill it in. The query is kept as the key/value
      map that `url.Values.Encode` renders into `RawQuery`. */
  datatype Url = Url(scheme: string, host: string, path: string, query: Query)

  /** Every key carries exactly one value. */
  predicate SingleValued(q: Query) {
    forall k :: k in q ==> |q[k]| == 1
  }

  /** `url.Values.Set`: `key` ends up with the single value `value`, replacing
      whatever it held; every other key keeps its values. */
  function Set(q: Query, key: string, value: string): (r: Query)
    ensures key in r && r[key] == [value]
    ensures forall k :: k != key ==> (k in r <==> k in q)
    ensures forall k :: k != key && k in q ==> r[k] == q[k]
  {
    q[key := [value]]
  }

  /** One step of a query builder: `if given { q.Set(key, value) }`. */
  datatype SetStep = SetStep(key: string, given: bool, value: string)

  /** The query after one step. */
  function SetIf(q: Query, step: SetStep): Query {
    if step.given then Set(q, step.key, step.value) else q
  }

  /** The query a builder holds after running `steps` in order on the empty
      query that `u.Query()` returns for a URL without one. */
  function Apply(steps: seq<SetStep>): Query
    decreases |steps|
  {
    if steps == [] then map[] else SetIf(Apply(steps[..|steps| - 1]), steps[|steps| - 1])
  }

  /** Running one more step on a prefix. */
  lemma ApplyPrefix(steps: seq<SetStep>, i: nat)
    requires i < |steps|
    ensures Apply(steps[..i + 1]) == SetIf(Apply(steps[..i]), steps[i])
  {
    assert steps[..i + 1][..i] == steps[..i];
  }

  /** Ten steps, run one after the other. */
  lemma ApplyTen(s: seq<SetStep>)
    requires |s| == 10
    ensures Apply(s) ==
      SetIf(SetIf(SetIf(SetIf(SetIf(SetIf(SetIf(SetIf(SetIf(SetIf(map[],
        s[0]), s[1]), s[2]), s[3]), s[4]), s[5]), s[6]), s[7]), s[8]), s[9])
  {
    assert s[..0] == [];
    ApplyPrefix(s, 0);
    ApplyPrefix(s, 1);
    ApplyPrefix(s, 2);
    ApplyPrefix(s, 3);
    ApplyPrefix(s, 4);
    ApplyPrefix(s, 5);
    ApplyPrefix(s, 6);
    ApplyPrefix(s, 7);
    ApplyPrefix(s, 8);
    ApplyPrefix(s, 9);
    assert s[..10] == s;
  }

  /** No two steps name the same key. */
  predicate DistinctKeys(steps: seq<SetStep>) {
    forall i, j :: 0 <= i < j < |steps| ==> steps[i].key != steps[j].key
  }

  /** `key` is in `q` exactly when `present`, and then holds just `value`. */
  predicate SentIff(q: Query, key: string, present: bool, value: string) {
    (key in q <==> present) && (key in q ==> q[key] == [value])
  }

  /** Each key of the result was set by a step that was given; every key carries one value. */
  lemma {:induction false} ApplyShape(steps: seq<SetStep>)
    ensures SingleValued(Apply(steps))
    ensures forall k :: k in Apply(steps) ==> exists i :: 0 <= i < |steps| && steps[i].key == k && steps[i].given
    decreases |steps|
  {
    if steps != [] {
      var init := steps[..|steps| - 1];
      ApplyShape(init);
      forall k | k in Apply(steps)
        ensures exists i :: 0 <= i < |steps| && steps[i].key == k && steps[i].given
      {
        if k in Apply(init) {
          var i :| 0 <= i < |init| && init[i].key == k && init[i].given;
          assert steps[i] == init[i];
        } else {
          assert steps[|steps| - 1].key == k && steps[|steps| - 1].given;
        }
      }
    }
  }

  /** With distinct keys, a step's key is in the result exactly when that step
      was given, and then holds that step's value. */
  lemma {:induction false} ApplySent(steps: seq<SetStep>, i: nat)
    requires DistinctKeys(steps) && i < |steps|
    ensures SentIff(Apply(steps), steps[i].key, steps[i].given, steps[i].value)
    decreases |steps|
  {
    var init := steps[..|steps| - 1];
    var last := steps[|steps| - 1];
    if i < |steps| - 1 {
      assert init[i] == steps[i];
      assert last.key != steps[i].key;
      ApplySent(init, i);
    } else if !last.given {
      ApplyShape(init);
      forall j | 0 <= j < |init|
        ensures init[j].key != last.key
      {
        assert init[j] == steps[j];
      }
    }
  }
}
