/** Root-domain derivation used by the zone lookup (index.js:39-40):
    `domain.split(".")`, keep the last two labels, `join(".")`. */
module Domain {

  /** `s.split(".")`: the maximal dot-free pieces of `s`, in order; the
      empty string splits into one empty label. */
  function Split(s: string): (labels: seq<string>)
    ensures |labels| >= 1
    ensures forall i :: 0 <= i < |labels| ==> '.' !in labels[i]
  {
    if s == [] then [""]
    else
      var rest := Split(s[1..]);
      if s[0] == '.' then [""] + rest
      else [[s[0]] + rest[0]] + rest[1..]
  }

  /** `labels.join(".")`. */
  function Join(labels: seq<string>): string
    requires |labels| >= 1
  {
    if |labels| == 1 then labels[0] else labels[0] + "." + Join(labels[1..])
  }

  /** `labels.slice(-2)`: the last two elements, or all of them when there
      are fewer than two. */
  function LastTwo<T>(labels: seq<T>): (r: seq<T>)
    ensures |r| == if |labels| < 2 then |labels| else 2
  {
    if |labels| <= 2 then labels else labels[|labels| - 2..]
  }

  /** The zone name looked up for `domain`. */
  function RootDomain(domain: string): string {
    Join(LastTwo(Split(domain)))
  }

  predicate DotFree(labels: seq<string>) {
    forall i :: 0 <= i < |labels| ==> '.' !in labels[i]
  }

  /** Splitting and joining again gives back the original string. */
  lemma {:induction false} JoinSplit(s: string)
    ensures Join(Split(s)) == s
  {
    if s != [] {
      var rest := Split(s[1..]);
      JoinSplit(s[1..]);
      if s[0] == '.' {
        assert ([""] + rest)[1..] == rest;
        assert Join(Split(s)) == "" + "." + Join(rest);
      } else if |rest| == 1 {
        assert Join(Split(s)) == [s[0]] + rest[0];
      } else {
        var labels := [[s[0]] + rest[0]] + rest[1..];
        assert labels[1..] == rest[1..];
        assert Join(rest) == rest[0] + "." + Join(rest[1..]);
        assert Join(labels) == [s[0]] + rest[0] + "." + Join(rest[1..]);
        assert s == [s[0]] + s[1..];
      }
    }
  }

  /** A dot-free prefix only lengthens the first label. */
  lemma {:induction false} SplitDotFreePrefix(a: string, t: string)
    requires '.' !in a
    ensures Split(a + t) == [a + Split(t)[0]] + Split(t)[1..]
  {
    if a != [] {
      assert (a + t)[0] == a[0] && (a + t)[1..] == a[1..] + t;
      SplitDotFreePrefix(a[1..], t);
      assert [a[0]] + (a[1..] + Split(t)[0]) == a + Split(t)[0];
    } else {
      assert a + t == t;
      assert a + Split(t)[0] == Split(t)[0];
      assert Split(t) == [Split(t)[0]] + Split(t)[1..];
    }
  }

  /** A dot-free label followed by a dot starts a new label. */
  lemma SplitLabelDot(a: string, t: string)
    requires '.' !in a
    ensures Split(a + "." + t) == [a] + Split(t)
  {
    var u := "." + t;
    assert a + "." + t == a + u;
    SplitDotFreePrefix(a, u);
    assert u[0] == '.' && u[1..] == t;
    assert Split(u) == [""] + Split(t);
    assert Split(u)[1..] == Split(t);
    assert a + Split(u)[0] == a;
  }

  /** Joining dot-free labels and splitting again gives back the labels. */
  lemma {:induction false} SplitJoin(labels: seq<string>)
    requires |labels| >= 1 && DotFree(labels)
    ensures Split(Join(labels)) == labels
  {
    if |labels| == 1 {
      SplitDotFreePrefix(labels[0], "");
      assert labels[0] + "" == labels[0];
    } else {
      assert '.' !in labels[0];
      SplitJoin(labels[1..]);
      SplitLabelDot(labels[0], Join(labels[1..]));
      assert labels == [labels[0]] + labels[1..];
    }
  }

  /** Joining two non-empty runs of labels puts one dot between them. */
  lemma {:induction false} JoinAppend(p: seq<string>, q: seq<string>)
    requires |p| >= 1 && |q| >= 1
    ensures Join(p + q) == Join(p) + "." + Join(q)
  {
    if |p| > 1 {
      assert (p + q)[1..] == p[1..] + q;
      JoinAppend(p[1..], q);
    } else {
      assert (p + q)[1..] == q;
    }
  }

  /** A domain of at most two labels is its own root domain. */
  lemma RootOfShortDomain(domain: string)
    requires |Split(domain)| <= 2
    ensures RootDomain(domain) == domain
  {
    JoinSplit(domain);
  }

  /** The root domain consists of exactly the last two labels of the domain
      (all of them when there are fewer). */
  lemma RootDomainLabels(domain: string)
    ensures Split(RootDomain(domain)) == LastTwo(Split(domain))
    ensures |Split(RootDomain(domain))| == if |Split(domain)| < 2 then 1 else 2
  {
    var labels := LastTwo(Split(domain));
    assert DotFree(labels) by {
      var all := Split(domain);
      forall i | 0 <= i < |labels| ensures '.' !in labels[i] {
        assert labels[i] == all[|all| - |labels| + i];
      }
    }
    SplitJoin(labels);
  }

  /** A longer domain is its leading labels, a dot, and the root domain. */
  lemma RootDomainIsSuffix(domain: string)
    requires |Split(domain)| > 2
    ensures var labels := Split(domain);
            domain == Join(labels[..|labels| - 2]) + "." + RootDomain(domain)
  {
    var labels := Split(domain);
    var n := |labels|;
    assert labels == labels[..n - 2] + labels[n - 2..];
    JoinAppend(labels[..n - 2], labels[n - 2..]);
    JoinSplit(domain);
  }

  /** Taking the root domain twice changes nothing. */
  lemma RootDomainIdempotent(domain: string)
    ensures RootDomain(RootDomain(domain)) == RootDomain(domain)
  {
    RootDomainLabels(domain);
    RootOfShortDomain(RootDomain(domain));
  }

  /** The heuristic keeps two labels even under a multi-label public suffix. */
  lemma RootDomainExample()
    ensures RootDomain("foo.bar.example.co") == "example.co"
  {
    var labels := ["foo", "bar", "example", "co"];
    assert DotFree(labels);
    assert labels[1..] == ["bar", "example", "co"] && labels[2..] == ["example", "co"];
    assert Join(["example", "co"]) == "example.co";
    assert Join(["bar", "example", "co"]) == "bar.example.co";
    assert Join(labels) == "foo.bar.example.co";
    SplitJoin(labels);
    assert LastTwo(labels) == ["example", "co"];
  }
}
