/** Partial firmware reports as JSON objects, and the fold that accumulates them. */
module Reports {
  import opened Prelude
  import opened Text

  // Float keeps what the gateway reads of a non-integral number: its truncation and its printed form.
  datatype Value =
    | Null
    | Bool(b: bool)
    | Int(n: int)
    | Float(whole: int, printed: string)
    | Str(s: string)
    | List(items: seq<Value>)
    | Obj(fields: Report)

  type Report = map<Key, Value>

  // Object keys: those the gateway reads by name, and every other one.
  datatype Key =
    | GcodeState | Command
    | TaskId | SubtaskId | GcodeStartTime
    | SubtaskName | GcodeFile
    | Url | ProjectFile | FileUrl
    | LayerNum | TotalLayerNum
    | Param | GcodeEntry
    | AmsMapping | Ams | TrayNow | ActiveTray
    | Title | PlateIndex
    | Named(name: string)

  function Get(r: Report, key: Key): Value {
    if key in r then r[key] else Null
  }

  predicate Truthy(v: Value) {
    match v
    case Null => false
    case Bool(b) => b
    case Int(n) => n != 0
    case Float(_, printed) => printed != "0.0" && printed != "-0.0"
    case Str(s) => s != ""
    case List(items) => items != []
    case Obj(fields) => fields != map[]
  }

  function Or(a: Value, b: Value): Value {
    if Truthy(a) then a else b
  }

  function TextOf(v: Value): string {
    match v
    case Null => ""
    case Bool(b) => if b then "True" else "False"
    case Int(n) => Decimal(n)
    case Float(_, printed) => printed
    case Str(s) => Strip(s)
    case List(_) => "[...]"
    case Obj(_) => "{...}"
  }

  function IntegerOf(v: Value, default: int): int {
    match v
    case Bool(b) => if b then 1 else 0
    case Int(n) => n
    case Float(whole, _) => whole
    case Str(s) => ParseInt(s).GetOr(default)
    case _ => default
  }

  function Merge(target: Report, update: Report): Report
    decreases Obj(update)
  {
    map k | k in target.Keys + update.Keys ::
      if k !in update then target[k]
      else if update[k].Obj? && k in target && target[k].Obj? then
        Obj(Merge(target[k].fields, update[k].fields))
      else update[k]
  }

  /** The accumulating loop: one key of the update at a time, recursing into objects on both sides. */
  method MergeInto(target: Report, update: Report) returns (merged: Report)
    ensures merged == Merge(target, update)
    decreases Obj(update)
  {
    merged := target;
    var pending := update.Keys;
    while pending != {}
      invariant pending <= update.Keys
      invariant merged.Keys == target.Keys + (update.Keys - pending)
      invariant forall k | k in merged ::
        merged[k] == if k in update && k !in pending then Merge(target, update)[k] else target[k]
    {
      var k :| k in pending;
      var value := update[k];
      if value.Obj? && k in merged && merged[k].Obj? {
        var inner := MergeInto(merged[k].fields, value.fields);
        merged := merged[k := Obj(inner)];
      } else {
        merged := merged[k := value];
      }
      pending := pending - {k};
    }
  }

  // ---------------------------------------------------------------------
  // What a report holds at a path, and what it writes there.

  type Path = p: seq<Key> | p != [] witness [TaskId]

  datatype Probe = Absent | Leaf(value: Value) | Node

  function ProbeOf(v: Value): Probe {
    if v.Obj? then Node else Leaf(v)
  }

  function ProbeAt(r: Report, p: Path): Probe
    decreases |p|
  {
    if p[0] !in r then Absent
    else if |p| == 1 then ProbeOf(r[p[0]])
    else if r[p[0]].Obj? then ProbeAt(r[p[0]].fields, p[1..])
    else Absent
  }

  // None: the report is silent about p. Some(Absent): it overwrote an ancestor of p with a non-object.
  function Written(r: Report, p: Path): Option<Probe>
    decreases |p|
  {
    if p[0] !in r then None
    else if |p| == 1 then Some(ProbeOf(r[p[0]]))
    else if r[p[0]].Obj? then Written(r[p[0]].fields, p[1..])
    else Some(Absent)
  }

  lemma {:induction false} WrittenIsHeld(r: Report, p: Path)
    ensures ProbeAt(r, p) == Written(r, p).GetOr(Absent)
    decreases |p|
  {
    if |p| > 1 && p[0] in r && r[p[0]].Obj? {
      WrittenIsHeld(r[p[0]].fields, p[1..]);
    }
  }

  /** One merge: each path gets what the update writes there, and keeps its content when the update is silent. */
  lemma {:induction false} MergeAt(m: Report, r: Report, p: Path)
    ensures ProbeAt(Merge(m, r), p) == Written(r, p).GetOr(ProbeAt(m, p))
    decreases |p|
  {
    if |p| > 1 && p[0] in r && r[p[0]].Obj? {
      if p[0] in m && m[p[0]].Obj? {
        MergeAt(m[p[0]].fields, r[p[0]].fields, p[1..]);
      } else {
        WrittenIsHeld(r[p[0]].fields, p[1..]);
      }
    }
  }

  function Fold(m: Report, reports: seq<Report>): Report {
    if reports == [] then m else Merge(Fold(m, reports[..|reports| - 1]), reports[|reports| - 1])
  }

  // Latest report that says anything about p, or None.
  function LastWritten(reports: seq<Report>, p: Path): Option<Probe> {
    if reports == [] then None
    else
      var last := Written(reports[|reports| - 1], p);
      if last.Some? then last else LastWritten(reports[..|reports| - 1], p)
  }

  /**
   * Accumulating any list of reports leaves at each path the last value written there or at an overwritten ancestor.
   */
  lemma {:induction false} FoldIsLastWrite(m: Report, reports: seq<Report>, p: Path)
    ensures ProbeAt(Fold(m, reports), p) == LastWritten(reports, p).GetOr(ProbeAt(m, p))
  {
    if reports != [] {
      FoldIsLastWrite(m, reports[..|reports| - 1], p);
      MergeAt(Fold(m, reports[..|reports| - 1]), reports[|reports| - 1], p);
    }
  }

  /** Two accumulated states that agree at every path are the same state. */
  lemma {:induction false} PathsDetermine(a: Report, b: Report)
    requires forall p: Path :: ProbeAt(a, p) == ProbeAt(b, p)
    ensures a == b
    decreases Obj(a)
  {
    forall k | k in a.Keys + b.Keys
      ensures k in a && k in b && a[k] == b[k]
    {
      assert ProbeAt(a, [k]) == ProbeAt(b, [k]);
      if a[k].Obj? {
        var x, y := a[k].fields, b[k].fields;
        forall p: Path ensures ProbeAt(x, p) == ProbeAt(y, p) {
          assert ([k] + p)[1..] == p;
          assert ProbeAt(a, [k] + p) == ProbeAt(b, [k] + p);
        }
        PathsDetermine(x, y);
      }
    }
    assert a.Keys == b.Keys;
  }

  /** Receiving a report twice changes nothing. */
  lemma MergeTwice(m: Report, r: Report)
    ensures Merge(Merge(m, r), r) == Merge(m, r)
  {
    forall p: Path ensures ProbeAt(Merge(Merge(m, r), r), p) == ProbeAt(Merge(m, r), p) {
      MergeAt(m, r, p);
      MergeAt(Merge(m, r), r, p);
    }
    PathsDetermine(Merge(Merge(m, r), r), Merge(m, r));
  }

  // Nowhere does b hold an object where a holds something else.
  predicate NoRevival(a: Report, b: Report)
    decreases Obj(b)
  {
    forall k | k in a && k in b ::
      b[k].Obj? ==> a[k].Obj? && NoRevival(a[k].fields, b[k].fields)
  }

  lemma {:induction false} WrittenByMerge(a: Report, b: Report, p: Path)
    requires NoRevival(a, b)
    ensures Written(Merge(a, b), p) == if Written(b, p).Some? then Written(b, p) else Written(a, p)
    decreases |p|
  {
    if |p| > 1 && p[0] in b && b[p[0]].Obj? && p[0] in a {
      WrittenByMerge(a[p[0]].fields, b[p[0]].fields, p[1..]);
    }
  }

  lemma CompatibleReportsCompose(m: Report, a: Report, b: Report)
    requires NoRevival(a, b)
    ensures Merge(Merge(m, a), b) == Merge(m, Merge(a, b))
  {
    var left, right := Merge(Merge(m, a), b), Merge(m, Merge(a, b));
    forall p: Path ensures ProbeAt(left, p) == ProbeAt(right, p) {
      MergeAt(m, a, p);
      MergeAt(Merge(m, a), b, p);
      MergeAt(m, Merge(a, b), p);
      WrittenByMerge(a, b, p);
    }
    PathsDetermine(left, right);
  }

  lemma {:induction false} UnusedName(keys: set<Key>) returns (name: string)
    ensures forall k | k in keys && k.Named? :: |k.name| < |name|
  {
    if keys == {} {
      name := "";
    } else {
      var k :| k in keys;
      name := UnusedName(keys - {k});
      if k.Named? && |k.name| >= |name| {
        name := k.name + "?";
      }
    }
  }

  /**
   * A scalar overwritten by an object forgets what the scalar had erased: the base state then tells the two orders
   * apart.
   */
  lemma {:induction false} RevivalBreaksComposition(a: Report, b: Report) returns (m: Report)
    requires !NoRevival(a, b)
    ensures Merge(Merge(m, a), b) != Merge(m, Merge(a, b))
    decreases Obj(b)
  {
    var k :| k in a && k in b && b[k].Obj? && !(a[k].Obj? && NoRevival(a[k].fields, b[k].fields));
    if a[k].Obj? {
      var inner := RevivalBreaksComposition(a[k].fields, b[k].fields);
      m := map[k := Obj(inner)];
      assert Merge(Merge(m, a), b)[k] == Obj(Merge(Merge(inner, a[k].fields), b[k].fields));
      assert Merge(m, Merge(a, b))[k] == Obj(Merge(inner, Merge(a[k].fields, b[k].fields)));
    } else {
      var name := UnusedName(b[k].fields.Keys);
      var unused := Named(name);
      m := map[k := Obj(map[unused := Null])];
      assert Merge(Merge(m, a), b)[k] == b[k];
      assert Merge(a, b)[k] == b[k];
      assert unused in Merge(m, Merge(a, b))[k].fields;
    }
  }

  // Merging a and then b is merging their merge, whatever was accumulated before.
  ghost predicate Composes(a: Report, b: Report) {
    forall m: Report :: Merge(Merge(m, a), b) == Merge(m, Merge(a, b))
  }

  /** Two reports can be merged ahead of time exactly when b revives no object that a replaced. */
  lemma {:induction false} ComposesIff(a: Report, b: Report)
    ensures Composes(a, b) <==> NoRevival(a, b)
  {
    if NoRevival(a, b) {
      forall m: Report ensures Merge(Merge(m, a), b) == Merge(m, Merge(a, b)) {
        CompatibleReportsCompose(m, a, b);
      }
    } else {
      var m := RevivalBreaksComposition(a, b);
      assert Merge(Merge(m, a), b) != Merge(m, Merge(a, b));
    }
  }
}
