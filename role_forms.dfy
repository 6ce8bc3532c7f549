/**
 * What the role create and role edit screens share: the role form, the
 * permission checkbox toggle, and the grouping of the permission catalogue
 * by its `group` field for display.
 */
module RoleForms {
  import opened Js

  /** The form state `{name, key, permissions}`; `permissions` holds permission names. */
  datatype RoleForm = RoleForm(name: string, key: string, permissions: seq<string>)

  /** `{name: '', key: '', permissions: []}`. */
  const EmptyForm := RoleForm("", "", [])

  /** One entry of the `GET /permissions` catalogue. */
  datatype Permission = Permission(name: string, group: string, view: string)

  /** The text inputs `handleChange` serves: `name="name"` and `name="key"`. */
  datatype RoleField = NameField | KeyField

  /** `setForm(prev => ({...prev, [field]: value}))`. */
  function WithField(form: RoleForm, field: RoleField, value: string): (r: RoleForm)
    ensures r.permissions == form.permissions
    ensures field == NameField ==> r.name == value && r.key == form.key
    ensures field == KeyField ==> r.key == value && r.name == form.name
  {
    match field
    case NameField => form.(name := value)
    case KeyField => form.(key := value)
  }

  /** `togglePermission(name)`: drop every occurrence when present, append when absent. */
  function Toggled(permissions: seq<string>, name: string): seq<string> {
    if Includes(permissions, name) then Filter(permissions, (n: string) => n != name)
    else permissions + [name]
  }

  /** A present name is removed everywhere; the other entries stay, in their order. */
  lemma ToggleRemoves(permissions: seq<string>, name: string)
    requires name in permissions
    ensures name !in Toggled(permissions, name)
    ensures IsSubsequence(Toggled(permissions, name), permissions)
    ensures forall n :: n in permissions && n != name ==> n in Toggled(permissions, name)
    ensures forall n :: n in permissions && n != name ==>
      multiset(Toggled(permissions, name))[n] == multiset(permissions)[n]
  {
    FilterCounts(permissions, (n: string) => n != name);
  }

  /** An absent name is appended at the end. */
  lemma ToggleAppends(permissions: seq<string>, name: string)
    requires name !in permissions
    ensures Toggled(permissions, name) == permissions + [name]
  {
  }

  /** The checkbox flips: after a toggle the name is in the list exactly when it was not before. */
  lemma ToggleFlipsMembership(permissions: seq<string>, name: string)
    ensures name in Toggled(permissions, name) <==> name !in permissions
  {
  }

  /** Toggling an absent name twice restores the original list. */
  lemma {:induction false} ToggleTwiceRestores(permissions: seq<string>, name: string)
    requires name !in permissions
    ensures Toggled(Toggled(permissions, name), name) == permissions
  {
    var keep := (n: string) => n != name;
    assert name in permissions + [name];
    FilterSnoc(permissions, name, keep);
    FilterKeepsAll(permissions, keep);
  }

  /** On a duplicate-free list a toggle changes the number of ticked names by exactly one. */
  lemma {:induction false} ToggleChangesCountByOne(permissions: seq<string>, name: string)
    requires Distinct(permissions)
    ensures |Toggled(permissions, name)| == if name in permissions then |permissions| - 1 else |permissions| + 1
  {
    if name in permissions {
      var r := Toggled(permissions, name);
      var m := multiset(permissions);
      assert m == m[name := 0] + multiset{name} by {
        DistinctOnce(permissions, name);
      }
      assert multiset(r) == m[name := 0] by {
        FilterCounts(permissions, (n: string) => n != name);
        forall n
          ensures multiset(r)[n] == m[name := 0][n]
        {
          if n !in permissions {
            assert n !in r;
          }
        }
      }
      assert |multiset(r)| == |m| - 1;
    }
  }

  /** A name that occurs in a duplicate-free list occurs once. */
  lemma {:induction false} DistinctOnce(s: seq<string>, x: string)
    requires Distinct(s) && x in s
    ensures multiset(s)[x] == 1
  {
    if s[0] == x {
      assert s == [s[0]] + s[1..];
      assert x !in s[1..];
    } else {
      assert s == [s[0]] + s[1..];
      DistinctOnce(s[1..], x);
    }
  }

  /** A duplicate-free list stays duplicate-free under toggling. */
  lemma ToggleKeepsDistinct(permissions: seq<string>, name: string)
    requires Distinct(permissions)
    ensures Distinct(Toggled(permissions, name))
  {
    if name in permissions {
      FilterKeepsDistinct(permissions, (n: string) => n != name);
    }
  }

  /** The array the reduce builds for `group`: each entry of that group pushed in catalogue order. */
  function Bucket(permissions: seq<Permission>, group: string): seq<Permission> {
    if permissions == [] then []
    else
      var last := permissions[|permissions| - 1];
      Bucket(permissions[..|permissions| - 1], group) + (if last.group == group then [last] else [])
  }

  /** The groups that occur in `permissions`. */
  function GroupsOf(permissions: seq<Permission>): set<string> {
    set p | p in permissions :: p.group
  }

  /** The sum of the bucket sizes over `order`. */
  function TotalSize(order: seq<string>, buckets: map<string, seq<Permission>>): nat
    requires forall g :: g in order ==> g in buckets
  {
    if order == [] then 0
    else TotalSize(order[..|order| - 1], buckets) + |buckets[order[|order| - 1]]|
  }

  /** Buckets outside `order` do not count. */
  lemma {:induction false} TotalSizeIgnoresOthers(order: seq<string>, buckets: map<string, seq<Permission>>, g: string, b: seq<Permission>)
    requires forall h :: h in order ==> h in buckets
    requires g !in order
    ensures TotalSize(order, buckets[g := b]) == TotalSize(order, buckets)
  {
    if order != [] {
      assert forall h :: h in order[..|order| - 1] ==> h in order;
      TotalSizeIgnoresOthers(order[..|order| - 1], buckets, g, b);
    }
  }

  /** Growing one listed bucket by one grows the total by one. */
  lemma {:induction false} TotalSizeGrow(order: seq<string>, buckets: map<string, seq<Permission>>, g: string, p: Permission)
    requires forall h :: h in order ==> h in buckets
    requires g in order && Distinct(order)
    ensures TotalSize(order, buckets[g := buckets[g] + [p]]) == TotalSize(order, buckets) + 1
  {
    var prefix := order[..|order| - 1];
    assert forall h :: h in prefix ==> h in order;
    if order[|order| - 1] == g {
      assert g !in prefix;
      TotalSizeIgnoresOthers(prefix, buckets, g, buckets[g] + [p]);
    } else {
      assert g in prefix;
      TotalSizeGrow(prefix, buckets, g, p);
    }
  }

  /** The groups of `permissions`, each once, in the order of their first entry. */
  function FirstSeen(permissions: seq<Permission>): seq<string> {
    if permissions == [] then []
    else
      var prior := FirstSeen(permissions[..|permissions| - 1]);
      var g := permissions[|permissions| - 1].group;
      if g in prior then prior else prior + [g]
  }

  /** One more entry adds its group at the end unless the group was seen already. */
  lemma FirstSeenSnoc(prefix: seq<Permission>, p: Permission)
    ensures FirstSeen(prefix + [p]) == if p.group in FirstSeen(prefix) then FirstSeen(prefix) else FirstSeen(prefix) + [p.group]
  {
    assert (prefix + [p])[..|prefix|] == prefix;
  }

  /** Some entry of group `g` comes before every entry of group `h`. */
  ghost predicate EntryBefore(permissions: seq<Permission>, g: string, h: string) {
    exists a ::
      && 0 <= a < |permissions| && permissions[a].group == g
      && forall b :: 0 <= b <= a ==> permissions[b].group != h
  }

  /** Appending an entry keeps an earlier entry earlier. */
  lemma EntryBeforeSnoc(prefix: seq<Permission>, p: Permission, g: string, h: string)
    requires EntryBefore(prefix, g, h)
    ensures EntryBefore(prefix + [p], g, h)
  {
    var a :|
      && 0 <= a < |prefix| && prefix[a].group == g
      && forall b :: 0 <= b <= a ==> prefix[b].group != h;
    assert forall b :: 0 <= b <= a ==> (prefix + [p])[b] == prefix[b];
  }

  /** Any entry of a group `g` present in `prefix` comes before a group that first appears after it. */
  lemma EntryBeforeNew(prefix: seq<Permission>, p: Permission, g: string)
    requires g in GroupsOf(prefix) && p.group !in GroupsOf(prefix)
    ensures EntryBefore(prefix + [p], g, p.group)
  {
    var a :| 0 <= a < |prefix| && prefix[a].group == g;
    forall b | 0 <= b <= a
      ensures (prefix + [p])[b].group != p.group
    {
      assert (prefix + [p])[b] == prefix[b];
      assert prefix[b].group in GroupsOf(prefix);
    }
    assert (prefix + [p])[a] == prefix[a];
  }

  /**
   * `FirstSeen` lists exactly the groups present, and of two listed groups the
   * earlier one has an entry before any entry of the later one.
   */
  lemma {:induction false} FirstSeenOrder(permissions: seq<Permission>)
    ensures forall g :: g in FirstSeen(permissions) <==> g in GroupsOf(permissions)
    ensures forall i, j :: 0 <= i < j < |FirstSeen(permissions)| ==>
      EntryBefore(permissions, FirstSeen(permissions)[i], FirstSeen(permissions)[j])
  {
    if permissions != [] {
      var n := |permissions| - 1;
      var prefix, p := permissions[..n], permissions[n];
      var prior := FirstSeen(prefix);
      FirstSeenOrder(prefix);
      assert permissions == prefix + [p];
      GroupsOfSnoc(prefix, p);
      var order := FirstSeen(permissions);
      assert order == prior || order == prior + [p.group];
      forall i, j | 0 <= i < j < |order|
        ensures EntryBefore(permissions, order[i], order[j])
      {
        assert order[i] == prior[i];
        if j < |prior| {
          assert order[j] == prior[j];
          assert EntryBefore(prefix, prior[i], prior[j]);
          EntryBeforeSnoc(prefix, p, prior[i], prior[j]);
        } else {
          assert order[j] == p.group && p.group !in prior;
          assert prior[i] in prior;
          EntryBeforeNew(prefix, p, prior[i]);
        }
      }
    }
  }

  /** `order` and `buckets` are the grouping of `prefix`. */
  ghost predicate Grouped(prefix: seq<Permission>, order: seq<string>, buckets: map<string, seq<Permission>>) {
    && Distinct(order)
    && (forall g :: g in order <==> g in buckets)
    && buckets.Keys == GroupsOf(prefix)
    && (forall g :: g in buckets ==> buckets[g] == Bucket(prefix, g))
    && TotalSize(order, buckets) == |prefix|
  }

  lemma BucketSnoc(prefix: seq<Permission>, p: Permission, g: string)
    ensures Bucket(prefix + [p], g) == Bucket(prefix, g) + (if p.group == g then [p] else [])
  {
    assert (prefix + [p])[..|prefix|] == prefix;
  }

  /** A bucket is what `permissions.filter(p => p.group === group)` returns. */
  lemma {:induction false} BucketIsFilter(permissions: seq<Permission>, group: string)
    ensures Bucket(permissions, group) == Filter(permissions, (p: Permission) => p.group == group)
  {
    if permissions != [] {
      var n := |permissions| - 1;
      BucketIsFilter(permissions[..n], group);
      assert permissions == permissions[..n] + [permissions[n]];
      FilterSnoc(permissions[..n], permissions[n], (p: Permission) => p.group == group);
    }
  }

  lemma GroupsOfSnoc(prefix: seq<Permission>, p: Permission)
    ensures GroupsOf(prefix + [p]) == GroupsOf(prefix) + {p.group}
  {
    assert p in prefix + [p];
    assert forall q :: q in prefix ==> q in prefix + [p];
  }

  /** A group that no entry carries has an empty bucket. */
  lemma BucketOfAbsentGroup(prefix: seq<Permission>, g: string)
    requires g !in GroupsOf(prefix)
    ensures Bucket(prefix, g) == []
  {
    if prefix != [] {
      var n := |prefix| - 1;
      assert prefix == prefix[..n] + [prefix[n]];
      GroupsOfSnoc(prefix[..n], prefix[n]);
      BucketOfAbsentGroup(prefix[..n], g);
    }
  }

  /** Meeting a new group opens its bucket with the entry and appends the group to the order. */
  lemma GroupedStepNew(prefix: seq<Permission>, p: Permission, order: seq<string>, buckets: map<string, seq<Permission>>)
    requires Grouped(prefix, order, buckets)
    requires p.group !in buckets
    ensures Grouped(prefix + [p], order + [p.group], buckets[p.group := [p]])
  {
    KeysStep(prefix, p, buckets, [p]);
    BucketsStepNew(prefix, p, buckets);
    OrderGrowsNew(order, buckets, p.group, [p]);
    SizeStepNew(prefix, p, order, buckets);
  }

  /** The keys follow the groups present whatever bucket the entry's group is given. */
  lemma KeysStep(prefix: seq<Permission>, p: Permission, buckets: map<string, seq<Permission>>, b: seq<Permission>)
    requires buckets.Keys == GroupsOf(prefix)
    ensures buckets[p.group := b].Keys == GroupsOf(prefix + [p])
  {
    GroupsOfSnoc(prefix, p);
  }

  /** The bucket opened for a new group holds exactly the entry. */
  lemma BucketsStepNew(prefix: seq<Permission>, p: Permission, buckets: map<string, seq<Permission>>)
    requires buckets.Keys == GroupsOf(prefix) && p.group !in buckets
    requires forall g :: g in buckets ==> buckets[g] == Bucket(prefix, g)
    ensures forall g :: g in buckets[p.group := [p]] ==> buckets[p.group := [p]][g] == Bucket(prefix + [p], g)
  {
    BucketOfAbsentGroup(prefix, p.group);
    assert Bucket(prefix, p.group) + [p] == [p];
    BucketsStep(prefix, p, buckets, [p]);
  }

  /** Opening a bucket of one entry adds one to the total size. */
  lemma SizeStepNew(prefix: seq<Permission>, p: Permission, order: seq<string>, buckets: map<string, seq<Permission>>)
    requires Distinct(order) && (forall g :: g in order <==> g in buckets) && p.group !in buckets
    requires TotalSize(order, buckets) == |prefix|
    ensures TotalSize(order + [p.group], buckets[p.group := [p]]) == |prefix + [p]|
  {
    OrderGrowsNew(order, buckets, p.group, [p]);
  }

  /** Replacing the bucket of the entry's group by that bucket plus the entry keeps every bucket exact. */
  lemma BucketsStep(prefix: seq<Permission>, p: Permission, buckets: map<string, seq<Permission>>, b: seq<Permission>)
    requires forall g :: g in buckets ==> buckets[g] == Bucket(prefix, g)
    requires b == Bucket(prefix, p.group) + [p]
    ensures forall g :: g in buckets[p.group := b] ==> buckets[p.group := b][g] == Bucket(prefix + [p], g)
  {
    forall g | g in buckets[p.group := b]
      ensures buckets[p.group := b][g] == Bucket(prefix + [p], g)
    {
      BucketSnoc(prefix, p, g);
    }
  }

  /** Opening a bucket for a group not yet listed keeps the order duplicate-free and adds the bucket's size. */
  lemma OrderGrowsNew(order: seq<string>, buckets: map<string, seq<Permission>>, g: string, b: seq<Permission>)
    requires Distinct(order) && (forall h :: h in order <==> h in buckets) && g !in buckets
    ensures Distinct(order + [g])
    ensures forall h :: h in order + [g] <==> h in buckets[g := b]
    ensures TotalSize(order + [g], buckets[g := b]) == TotalSize(order, buckets) + |b|
  {
    TotalSizeIgnoresOthers(order, buckets, g, b);
    assert (order + [g])[..|order|] == order;
  }

  /** Meeting a known group pushes the entry onto its bucket and leaves the order alone. */
  lemma GroupedStepKnown(prefix: seq<Permission>, p: Permission, order: seq<string>, buckets: map<string, seq<Permission>>)
    requires Grouped(prefix, order, buckets)
    requires p.group in buckets
    ensures buckets[p.group := buckets[p.group] + [p]].Keys == GroupsOf(prefix + [p])
    ensures forall g :: g in order <==> g in buckets[p.group := buckets[p.group] + [p]]
    ensures TotalSize(order, buckets[p.group := buckets[p.group] + [p]]) == |prefix + [p]|
    ensures Grouped(prefix + [p], order, buckets[p.group := buckets[p.group] + [p]])
  {
    GroupsOfSnoc(prefix, p);
    BucketsStep(prefix, p, buckets, buckets[p.group] + [p]);
    TotalSizeGrow(order, buckets, p.group, p);
  }

  /** A step of the reduce that meets a new group, from the first `i` entries to the first `i + 1`. */
  lemma GroupedAtNew(permissions: seq<Permission>, i: nat, order: seq<string>, buckets: map<string, seq<Permission>>)
    requires i < |permissions| && permissions[i].group !in buckets
    requires Grouped(permissions[..i], order, buckets)
    ensures Grouped(permissions[..i + 1], order + [permissions[i].group], buckets[permissions[i].group := [permissions[i]]])
  {
    assert permissions[..i + 1] == permissions[..i] + [permissions[i]];
    GroupedStepNew(permissions[..i], permissions[i], order, buckets);
  }

  /** A step of the reduce that meets a known group, from the first `i` entries to the first `i + 1`. */
  lemma GroupedAtKnown(permissions: seq<Permission>, i: nat, order: seq<string>, buckets: map<string, seq<Permission>>)
    requires i < |permissions| && permissions[i].group in buckets
    requires Grouped(permissions[..i], order, buckets)
    ensures Grouped(permissions[..i + 1], order, buckets[permissions[i].group := buckets[permissions[i].group] + [permissions[i]]])
  {
    assert permissions[..i + 1] == permissions[..i] + [permissions[i]];
    GroupedStepKnown(permissions[..i], permissions[i], order, buckets);
  }

  /** A step of the reduce keeps `order` the list of groups in first-seen order. */
  lemma FirstSeenAt(permissions: seq<Permission>, i: nat, order: seq<string>, buckets: map<string, seq<Permission>>)
    requires i < |permissions|
    requires forall g :: g in order <==> g in buckets
    requires order == FirstSeen(permissions[..i])
    ensures permissions[i].group !in buckets ==> order + [permissions[i].group] == FirstSeen(permissions[..i + 1])
    ensures permissions[i].group in buckets ==> order == FirstSeen(permissions[..i + 1])
  {
    assert permissions[..i + 1] == permissions[..i] + [permissions[i]];
    FirstSeenSnoc(permissions[..i], permissions[i]);
  }

  /**
   * The `groupedPermissions` reduce: each entry is pushed onto the array of its
   * group, which is created when the group is first met; `order` lists the
   * groups in the order they were first met (`Object.keys` of the result).
   */
  method GroupByGroup(permissions: seq<Permission>) returns (order: seq<string>, buckets: map<string, seq<Permission>>)
    ensures Distinct(order)
    ensures forall g :: g in order <==> g in buckets
    ensures buckets.Keys == GroupsOf(permissions)
    ensures forall g :: g in buckets ==> buckets[g] == Bucket(permissions, g)
    ensures TotalSize(order, buckets) == |permissions|
    ensures order == FirstSeen(permissions)
  {
    order, buckets := [], map[];
    var i := 0;
    while i < |permissions|
      invariant 0 <= i <= |permissions|
      invariant Grouped(permissions[..i], order, buckets)
      invariant order == FirstSeen(permissions[..i])
    {
      var p := permissions[i];
      FirstSeenAt(permissions, i, order, buckets);
      if p.group !in buckets {
        GroupedAtNew(permissions, i, order, buckets);
        buckets := buckets[p.group := [p]];
        order := order + [p.group];
      } else {
        GroupedAtKnown(permissions, i, order, buckets);
        buckets := buckets[p.group := buckets[p.group] + [p]];
      }
      i := i + 1;
    }
    assert permissions[..i] == permissions;
  }

  /** Each entry lies in exactly one bucket, the one named by its group. */
  lemma BucketsPartition(permissions: seq<Permission>, p: Permission, g: string)
    requires p in permissions
    ensures p in Bucket(permissions, g) <==> p.group == g
  {
    BucketIsFilter(permissions, g);
  }
}
