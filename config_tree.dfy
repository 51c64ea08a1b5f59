/** The hierarchical configuration the file manager reads through
    `getConfig(path, default)` and `getConfig()->getOneIs(candidates)`. */
module ConfigTree {
  import opened Common

  /** A configuration value: a string or integer leaf, or a table (a PHP
      array, which the configuration wraps in a `Config` object) from keys
      to sub-trees. */
  datatype Config =
    | Text(text: string)
    | Number(number: int)
    | Table(entries: map<string, Config>)

  /** The value found by following the keys of `path` from `c`. */
  function Lookup(c: Config, path: seq<string>): (r: Option<Config>)
    ensures path == [] ==> r == Some(c)
    ensures !c.Table? && path != [] ==> r.None?
    decreases |path|
  {
    if path == [] then Some(c)
    else if c.Table? && path[0] in c.entries then Lookup(c.entries[path[0]], path[1..])
    else None
  }

  /** `getConfig(path, default)`: the value at `path`, or `default` when absent. */
  function GetOr(c: Config, path: seq<string>, default: Config): (r: Config)
    ensures Lookup(c, path) == Some(r) || (Lookup(c, path).None? && r == default)
  {
    match Lookup(c, path)
    case Some(v) => v
    case None => default
  }

  /** Looking up a joined path is looking up its second part from wherever
      the first part leads. */
  lemma {:induction false} LookupAppend(c: Config, p: seq<string>, q: seq<string>)
    ensures Lookup(c, p + q) == match Lookup(c, p) { case None => None case Some(v) => Lookup(v, q) }
    decreases |p|
  {
    if p == [] {
      assert p + q == q;
    } else {
      assert (p + q)[0] == p[0];
      assert (p + q)[1..] == p[1..] + q;
      if c.Table? && p[0] in c.entries {
        LookupAppend(c.entries[p[0]], p[1..], q);
      }
    }
  }

  /** Index of the first candidate path that resolves in `c`, or
      |candidates| when none does. */
  function FirstIndex(c: Config, candidates: seq<seq<string>>): (k: nat)
    ensures k <= |candidates|
    ensures forall j :: 0 <= j < k ==> Lookup(c, candidates[j]).None?
    ensures k < |candidates| ==> Lookup(c, candidates[k]).Some?
  {
    if candidates == [] || Lookup(c, candidates[0]).Some? then 0
    else 1 + FirstIndex(c, candidates[1..])
  }

  /** `getOneIs(candidates)`: the value of the first candidate path that
      resolves, or null when none does. */
  function FirstResolved(c: Config, candidates: seq<seq<string>>): (r: Option<Config>)
    ensures r.None? <==> forall i :: 0 <= i < |candidates| ==> Lookup(c, candidates[i]).None?
  {
    var k := FirstIndex(c, candidates);
    if k < |candidates| then Lookup(c, candidates[k]) else None
  }

  /** Priority order: a candidate that resolves wins exactly when no earlier
      candidate resolves. */
  lemma FirstResolvedAt(c: Config, candidates: seq<seq<string>>, i: nat)
    requires i < |candidates| && Lookup(c, candidates[i]).Some?
    requires forall j :: 0 <= j < i ==> Lookup(c, candidates[j]).None?
    ensures FirstResolved(c, candidates) == Lookup(c, candidates[i])
  {
  }
}
