/** Ruby's `String#split('/')` and `Array#join('/')` on a URL path, as
    `standard_size_image_url` uses them (bot.rb:59, 62).

    `split` keeps a leading empty field and empty fields in the middle but
    drops every trailing empty field, so `"/b/img.png"` gives
    `["", "b", "img.png"]`, `"/b/"` gives `["", "b"]`, and `""` and `"/"`
    give `[]`. */
module PathSegments {

  predicate NoSlash(f: string) {
    '/' !in f
  }

  /** Every field between slashes, empty ones included: the split before
      Ruby removes the trailing empties. */
  function Fields(s: string): (r: seq<string>)
    ensures |r| >= 1
    ensures forall k | 0 <= k < |r| :: NoSlash(r[k])
  {
    if s == [] then [""]
    else
      var rest := Fields(s[1..]);
      if s[0] == '/' then [""] + rest
      else [[s[0]] + rest[0]] + rest[1..]
  }

  /** `fields.join('/')`. */
  function Join(fields: seq<string>): (r: string)
    ensures fields != [] ==> fields[0] <= r
    ensures |fields| >= 2 ==> |fields[0]| < |r| && r[|fields[0]|] == '/'
  {
    if fields == [] then ""
    else if |fields| == 1 then fields[0]
    else fields[0] + "/" + Join(fields[1..])
  }

  /** Ruby drops the empty fields at the end of a split. */
  function DropTrailingEmpty(fields: seq<string>): (r: seq<string>)
    ensures |r| <= |fields| && r == fields[..|r|]
    ensures forall k | |r| <= k < |fields| :: fields[k] == ""
    ensures r != [] ==> r[|r| - 1] != ""
  {
    if fields != [] && fields[|fields| - 1] == "" then DropTrailingEmpty(fields[..|fields| - 1])
    else fields
  }

  /** `path.split('/')`. */
  function Split(s: string): (r: seq<string>)
    ensures forall k | 0 <= k < |r| :: NoSlash(r[k])
    ensures r != [] ==> r[|r| - 1] != ""
  {
    DropTrailingEmpty(Fields(s))
  }

  /** Joining the fields of a string gives the string back. */
  lemma {:induction false} JoinFields(s: string)
    ensures Join(Fields(s)) == s
  {
    if s != [] {
      var rest := Fields(s[1..]);
      JoinFields(s[1..]);
      if s[0] == '/' {
        assert Fields(s) == [""] + rest;
        assert ([""] + rest)[1..] == rest;
      } else {
        var head := [s[0]] + rest[0];
        assert Fields(s) == [head] + rest[1..];
        if |rest| == 1 {
          assert Join(Fields(s)) == head == [s[0]] + s[1..];
        } else {
          assert ([head] + rest[1..])[1..] == rest[1..];
          assert Join(rest) == rest[0] + "/" + Join(rest[1..]);
        }
      }
    }
  }

  /** Splitting a join of slash-free fields gives the fields back. */
  lemma {:induction false} FieldsJoin(fields: seq<string>)
    requires |fields| >= 1 && forall k | 0 <= k < |fields| :: NoSlash(fields[k])
    ensures Fields(Join(fields)) == fields
    decreases |Join(fields)|
  {
    var s := Join(fields);
    if |fields| == 1 {
      FieldsOfSlashFree(fields[0]);
    } else if fields[0] == "" {
      assert s == "/" + Join(fields[1..]);
      assert s[1..] == Join(fields[1..]);
      FieldsJoin(fields[1..]);
      assert Fields(s) == [""] + fields[1..];
    } else {
      var tail := [fields[0][1..]] + fields[1..];
      assert fields[0] == [fields[0][0]] + fields[0][1..];
      assert tail[1..] == fields[1..];
      assert '/' !in fields[0][1..] by {
        forall k | 0 <= k < |fields[0][1..]| ensures fields[0][1..][k] != '/' {
          assert fields[0][1..][k] == fields[0][k + 1];
        }
      }
      assert Join(tail) == fields[0][1..] + "/" + Join(fields[1..]);
      assert s == [fields[0][0]] + Join(tail);
      assert s[1..] == Join(tail);
      assert s[0] == fields[0][0] != '/';
      FieldsJoin(tail);
      assert Fields(s) == [[s[0]] + tail[0]] + tail[1..];
    }
  }

  /** A string with no slash is a single field. */
  lemma {:induction false} FieldsOfSlashFree(f: string)
    requires NoSlash(f)
    ensures Fields(f) == [f]
  {
    if f != [] {
      assert '/' !in f[1..] by {
        forall k | 0 <= k < |f[1..]| ensures f[1..][k] != '/' {
          assert f[1..][k] == f[k + 1];
        }
      }
      FieldsOfSlashFree(f[1..]);
      assert f == [f[0]] + f[1..];
    }
  }

  /** `split` undoes `join` on slash-free fields whose last one is non-empty
      (Ruby's `split` never yields an empty last field). */
  lemma SplitJoin(fields: seq<string>)
    requires forall k | 0 <= k < |fields| :: NoSlash(fields[k])
    requires fields != [] ==> fields[|fields| - 1] != ""
    ensures Split(Join(fields)) == fields
  {
    if fields == [] {
      assert Fields("") == [""];
    } else {
      FieldsJoin(fields);
    }
  }

  /** `join` distributes over concatenation of non-empty field lists. */
  lemma {:induction false} JoinAppend(a: seq<string>, b: seq<string>)
    requires a != [] && b != []
    ensures Join(a + b) == Join(a) + "/" + Join(b)
  {
    if |a| > 1 {
      assert (a + b)[1..] == a[1..] + b;
      JoinAppend(a[1..], b);
    } else {
      assert (a + b)[1..] == b;
    }
  }

  /** Joining only empty fields gives only slashes, one fewer than fields. */
  lemma {:induction false} JoinOfEmpties(fields: seq<string>)
    requires fields != [] && forall k | 0 <= k < |fields| :: fields[k] == ""
    ensures |Join(fields)| == |fields| - 1
    ensures forall k | 0 <= k < |Join(fields)| :: Join(fields)[k] == '/'
  {
    if |fields| > 1 {
      JoinOfEmpties(fields[1..]);
      assert Join(fields) == "/" + Join(fields[1..]);
    }
  }

  /** A string of slashes splits into empty fields only. */
  lemma {:induction false} FieldsOfSlashes(s: string)
    requires forall k | 0 <= k < |s| :: s[k] == '/'
    ensures |Fields(s)| == |s| + 1
    ensures forall k | 0 <= k < |Fields(s)| :: Fields(s)[k] == ""
  {
    if s != [] {
      FieldsOfSlashes(s[1..]);
    }
  }

  /** `split` loses nothing but the slashes at the end: the string is the
      join of its split followed by slashes only. */
  lemma SplitDropsOnlyTrailingSlashes(s: string)
    ensures |Join(Split(s))| <= |s| && s[..|Join(Split(s))|] == Join(Split(s))
    ensures forall k | |Join(Split(s))| <= k < |s| :: s[k] == '/'
  {
    var all := Fields(s);
    var kept := Split(s);
    JoinFields(s);
    if kept == [] {
      JoinOfEmpties(all);
    } else if |kept| < |all| {
      var dropped := all[|kept|..];
      assert all == kept + dropped;
      JoinAppend(kept, dropped);
      JoinOfEmpties(dropped);
      var tail := "/" + Join(dropped);
      assert s == Join(kept) + tail;
      forall k | |Join(kept)| <= k < |s| ensures s[k] == '/' {
        assert s[k] == tail[k - |Join(kept)|];
      }
    }
  }

  /** A path splits into nothing exactly when it is made of slashes, the
      empty string included. */
  lemma SplitEmptyIffSlashes(s: string)
    ensures Split(s) == [] <==> forall k | 0 <= k < |s| :: s[k] == '/'
  {
    if forall k | 0 <= k < |s| :: s[k] == '/' {
      FieldsOfSlashes(s);
    }
    if Split(s) == [] {
      JoinFields(s);
      JoinOfEmpties(Fields(s));
    }
  }
}
