/**
 * Homework description sanitising, shared by `getHomeworks` and every
 * `listHomeworks`: the original text is kept in `description_raw`, and
 * `description` loses its tags (`/(<([^>]+)>)/gi`), every `&nbsp;`, and the
 * whitespace around it.
 */
module HomeworkText {
  import opened Text
  import opened Http

  /**
   * A match of `<([^>]+)>` at the start of `s`: a `<`, at least one
   * character that is not `>`, then a `>`. Greedy `[^>]+` stops at the
   * first `>`, so the match ends there.
   */
  predicate TagAtStart(s: string) {
    |s| >= 2 && s[0] == '<' && s[1] != '>' && '>' in s[2..]
  }

  /** No match of the tag pattern starts anywhere in `s`. */
  predicate TagFree(s: string) {
    forall i :: 0 <= i < |s| ==> !TagAtStart(s[i..])
  }

  /** `s.replace(/(<([^>]+)>)/gi, "")`: leftmost matches, left to right. */
  function StripTags(s: string): (r: string)
    ensures |r| <= |s|
    ensures forall ch :: ch in r ==> ch in s
    decreases |s|
  {
    if s == [] then []
    else if TagAtStart(s) then
      var close := IndexOf(s, '>');
      var rest := StripTags(s[close + 1..]);
      assert forall ch :: ch in rest ==> ch in s by {
        forall ch | ch in rest ensures ch in s {
          var k :| 0 <= k < |s[close + 1..]| && s[close + 1..][k] == ch;
          assert s[close + 1 + k] == ch;
        }
      }
      rest
    else
      var rest := StripTags(s[1..]);
      assert forall ch :: ch in rest ==> ch in s by {
        forall ch | ch in rest ensures ch in s {
          var k :| 0 <= k < |s[1..]| && s[1..][k] == ch;
          assert s[1 + k] == ch;
        }
      }
      [s[0]] + rest
  }

  /** Whatever `StripTags` leaves holds no match of the pattern. */
  lemma {:induction false} StripTagsLeavesNoTag(s: string)
    ensures TagFree(StripTags(s))
    decreases |s|
  {
    if s == [] {
    } else if TagAtStart(s) {
      StripTagsLeavesNoTag(s[IndexOf(s, '>') + 1..]);
    } else {
      var rest := StripTags(s[1..]);
      StripTagsLeavesNoTag(s[1..]);
      var r := [s[0]] + rest;
      assert r == StripTags(s);
      forall i | 0 <= i < |r| ensures !TagAtStart(r[i..]) {
        if i > 0 {
          assert r[i..] == rest[i - 1..];
        } else if s[0] == '<' && |r| >= 2 {
          assert r[1..] == rest;
          if s[1] == '>' {
            assert TagAtStart(s[1..]) == false;
            assert rest[0] == '>';
          } else {
            assert '>' !in s[2..];
            assert '>' !in s[1..] by {
              forall k | 0 <= k < |s[1..]| ensures s[1..][k] != '>' {
                if k > 0 { assert s[1..][k] == s[2..][k - 1]; }
              }
            }
            assert '>' !in rest;
            assert '>' !in r[2..] by {
              forall k | 0 <= k < |r[2..]| ensures r[2..][k] != '>' {
                assert r[2..][k] == rest[k + 1];
              }
            }
          }
        }
      }
    }
  }

  /** Text without a match of the pattern passes through unchanged. */
  lemma {:induction false} StripTagsTagFree(s: string)
    requires TagFree(s)
    ensures StripTags(s) == s
    decreases |s|
  {
    if s != [] {
      assert s[0..] == s;
      assert TagFree(s[1..]) by {
        forall i | 0 <= i < |s[1..]| ensures !TagAtStart(s[1..][i..]) {
          assert s[1..][i..] == s[i + 1..];
        }
      }
      StripTagsTagFree(s[1..]);
    }
  }

  /** Text before the first `<` is kept as it is. */
  lemma {:induction false} StripTagsKeepsPrefix(p: string, s: string)
    requires '<' !in p
    ensures StripTags(p + s) == p + StripTags(s)
    decreases |p|
  {
    if p == [] {
      assert p + s == s;
    } else {
      assert (p + s)[1..] == p[1..] + s;
      StripTagsKeepsPrefix(p[1..], s);
      assert [p[0]] + (p[1..] + StripTags(s)) == p + StripTags(s);
    }
  }

  /** A tag at the front goes, and only the tag: the text after its `>` is stripped on its own. */
  lemma StripTagsDropsTag(inner: string, s: string)
    requires inner != [] && '>' !in inner
    ensures StripTags("<" + inner + ">" + s) == StripTags(s)
  {
    var x := "<" + inner + ">" + s;
    assert x[1] == inner[0] && x[|inner| + 1] == '>';
    assert x[2..][|inner| - 1] == '>';
    assert x[..|inner| + 1] == "<" + inner;
    assert IndexOf(x, '>') == |inner| + 1;
    assert x[|inner| + 2..] == s;
  }

  /** Stripping twice strips nothing more. */
  lemma StripTagsIdempotent(s: string)
    ensures StripTags(StripTags(s)) == StripTags(s)
  {
    StripTagsLeavesNoTag(s);
    StripTagsTagFree(StripTags(s));
  }

  /** `s.replace(/&nbsp;/g, "")`. */
  function RemoveNbsp(s: string): string {
    ReplaceAll(s, "&nbsp;", "")
  }

  /** The description as the clients rewrite it: tags stripped, then `&nbsp;` removed, then trimmed. */
  function Sanitise(description: string): string {
    Trim(RemoveNbsp(StripTags(description)))
  }

  /** Text that is already clean (no tag, no `&nbsp;`, no surrounding whitespace) is left as it is. */
  lemma SanitiseClean(s: string)
    requires TagFree(s) && Free(s, "&nbsp;")
    requires s != [] ==> !IsJsSpace(s[0]) && !IsJsSpace(s[|s| - 1])
    ensures Sanitise(s) == s
  {
    StripTagsTagFree(s);
    ReplaceAllFree(s, "&nbsp;", "");
    TrimUnspaced(s);
  }

  /** One homework after the loop body: `description_raw` is the old description, `description` its sanitised form. */
  function SanitiseHomework(h: Homework): (r: Homework)
    ensures r.descriptionRaw == h.description
    ensures r.description == Sanitise(h.description)
    ensures r.id == h.id && r.lesson == h.lesson
  {
    h.(descriptionRaw := h.description, description := Sanitise(h.description))
  }

  function SanitiseAll(hs: seq<Homework>): (r: seq<Homework>)
    ensures |r| == |hs|
    ensures forall i :: 0 <= i < |hs| ==> r[i] == SanitiseHomework(hs[i])
  {
    seq(|hs|, i requires 0 <= i < |hs| => SanitiseHomework(hs[i]))
  }

  /** Rewrite every element of `a` in place with `f`, first to last. */
  method MapInPlace<T>(a: array<T>, f: T -> T)
    modifies a
    ensures |old(a[..])| == a.Length
    ensures forall i :: 0 <= i < a.Length ==> a[i] == f(old(a[i]))
  {
    for i := 0 to a.Length
      invariant forall k :: 0 <= k < i ==> a[k] == f(old(a[k]))
      invariant forall k :: i <= k < a.Length ==> a[k] == old(a[k])
    {
      a[i] := f(a[i]);
    }
  }

  /** The `for (let i = 0; i < data.length; i++)` loop, rewriting each homework in place. */
  method SanitiseInPlace(hs: array<Homework>)
    modifies hs
    ensures hs[..] == SanitiseAll(old(hs[..]))
  {
    MapInPlace(hs, SanitiseHomework);
  }

  /**
   * The list a homework request returns, sanitised: the same homeworks in
   * the same order, each keeping its original description as
   * `description_raw`.
   */
  method SanitiseList(list: seq<Homework>) returns (r: seq<Homework>)
    ensures r == SanitiseAll(list)
  {
    var a := new Homework[|list|](i requires 0 <= i < |list| => list[i]);
    assert a[..] == list;
    SanitiseInPlace(a);
    r := a[..];
  }
}
