/**
 * The volume-path rewriting applied under Docker Toolbox on Windows: three
 * successive global replacements over every volume flag,
 * /C:\\/gi -> "/c/", then /\\/gi -> "/", then /:\//gi -> "://".
 */
module Volumes {

  /** A drive prefix `C:\` or `c:\` begins at position i of s. */
  predicate DriveAt(s: string, i: int) {
    0 <= i && i + 3 <= |s| && (s[i] == 'C' || s[i] == 'c') && s[i + 1] == ':' && s[i + 2] == '\\'
  }

  /**
   * What becomes of position i: occurrences of the drive prefix never
   * overlap, so each one turns into "/c/" wherever it stands.
   */
  function DriveRewrittenAt(s: string, i: int): char
    requires 0 <= i < |s|
  {
    if DriveAt(s, i) then '/'
    else if DriveAt(s, i - 1) then 'c'
    else if DriveAt(s, i - 2) then '/'
    else s[i]
  }

  /** `s.replace(/C:\\/gi, '/c/')`: every drive prefix, anywhere, scanning left to right. */
  function ReplaceDrive(s: string): string
    decreases |s|
  {
    if DriveAt(s, 0) then "/c/" + ReplaceDrive(s[3..])
    else if s == [] then []
    else [s[0]] + ReplaceDrive(s[1..])
  }

  /** The global replacement rewrites exactly the drive prefixes, in place, keeping the length. */
  lemma {:induction false} ReplaceDriveAt(s: string)
    ensures |ReplaceDrive(s)| == |s|
    ensures forall i :: 0 <= i < |s| ==> ReplaceDrive(s)[i] == DriveRewrittenAt(s, i)
    decreases |s|
  {
    var r := ReplaceDrive(s);
    if DriveAt(s, 0) {
      var t := s[3..];
      ReplaceDriveAt(t);
      forall i | 3 <= i < |s| ensures r[i] == DriveRewrittenAt(s, i) {
        assert r[i] == ReplaceDrive(t)[i - 3];
        assert DriveAt(s, i) == DriveAt(t, i - 3);
        assert DriveAt(s, i - 1) == DriveAt(t, i - 4);
        assert DriveAt(s, i - 2) == DriveAt(t, i - 5);
      }
    } else if s != [] {
      var t := s[1..];
      ReplaceDriveAt(t);
      forall i | 1 <= i < |s| ensures r[i] == DriveRewrittenAt(s, i) {
        assert r[i] == ReplaceDrive(t)[i - 1];
        assert DriveAt(s, i) == DriveAt(t, i - 1);
        assert DriveAt(s, i - 1) == DriveAt(t, i - 2);
        assert DriveAt(s, i - 2) == DriveAt(t, i - 3);
      }
    }
  }

  /** After the replacement no drive prefix is left, in either case. */
  lemma NoDriveLeft(s: string)
    ensures forall i :: !DriveAt(ReplaceDrive(s), i)
  {
    ReplaceDriveAt(s);
  }

  /** `s.replace(/\\/gi, '/')`: every backslash becomes a slash. */
  function ReplaceBackslashes(s: string): string
    decreases |s|
  {
    if s == [] then []
    else [if s[0] == '\\' then '/' else s[0]] + ReplaceBackslashes(s[1..])
  }

  /** Each backslash, and nothing else, turns into a slash in place. */
  lemma {:induction false} ReplaceBackslashesAt(s: string)
    ensures |ReplaceBackslashes(s)| == |s|
    ensures forall i :: 0 <= i < |s| ==> ReplaceBackslashes(s)[i] == (if s[i] == '\\' then '/' else s[i])
    decreases |s|
  {
    if s != [] {
      ReplaceBackslashesAt(s[1..]);
    }
  }

  /** A colon followed by a slash begins at position i of s. */
  predicate ColonSlashAt(s: string, i: int) {
    0 <= i && i + 2 <= |s| && s[i] == ':' && s[i + 1] == '/'
  }

  /** `s.replace(/:\//gi, '://')`: every ":/" becomes "://"; inserted text is not rescanned. */
  function DoubleColonSlash(s: string): string
    decreases |s|
  {
    if ColonSlashAt(s, 0) then "://" + DoubleColonSlash(s[2..])
    else if s == [] then []
    else [s[0]] + DoubleColonSlash(s[1..])
  }

  /** Doubling keeps the first character and adds nothing but slashes. */
  lemma {:induction false} DoubleColonSlashChars(s: string)
    ensures var r := DoubleColonSlash(s); (r == []) == (s == []) && (s != [] ==> r[0] == s[0])
    ensures forall i :: 0 <= i < |DoubleColonSlash(s)| ==> DoubleColonSlash(s)[i] == '/' || DoubleColonSlash(s)[i] in s
    decreases |s|
  {
    if ColonSlashAt(s, 0) {
      DoubleColonSlashChars(s[2..]);
    } else if s != [] {
      DoubleColonSlashChars(s[1..]);
    }
  }

  /** Every ":/" in the result is followed by a second slash: each separator was doubled. */
  lemma {:induction false} DoubleColonSlashDoubles(s: string)
    ensures forall i :: ColonSlashAt(DoubleColonSlash(s), i) ==>
      i + 2 < |DoubleColonSlash(s)| && DoubleColonSlash(s)[i + 2] == '/'
    decreases |s|
  {
    var r := DoubleColonSlash(s);
    if ColonSlashAt(s, 0) {
      var t := DoubleColonSlash(s[2..]);
      DoubleColonSlashDoubles(s[2..]);
      assert r == "://" + t;
      assert |r| == |t| + 3 && r[1] == '/' && r[2] == '/';
      forall i | ColonSlashAt(r, i) ensures i + 2 < |r| && r[i + 2] == '/' {
        if i >= 3 {
          assert r[i] == t[i - 3] && r[i + 1] == t[i - 2];
          assert ColonSlashAt(t, i - 3);
          assert r[i + 2] == t[i - 1];
        }
      }
    } else if s != [] {
      var t := DoubleColonSlash(s[1..]);
      DoubleColonSlashDoubles(s[1..]);
      DoubleColonSlashChars(s[1..]);
      assert r == [s[0]] + t;
      forall i | ColonSlashAt(r, i) ensures i + 2 < |r| && r[i + 2] == '/' {
        if i > 0 {
          assert ColonSlashAt(t, i - 1);
        }
      }
    }
  }

  /** The inverse rewriting: every "://" back to ":/". */
  function CollapseColonSlash(t: string): string
    decreases |t|
  {
    if |t| >= 3 && t[..3] == "://" then ":/" + CollapseColonSlash(t[3..])
    else if t == [] then []
    else [t[0]] + CollapseColonSlash(t[1..])
  }

  /** Doubling loses nothing: collapsing the doubled separators gives the original back. */
  lemma {:induction false} CollapseUndoesDouble(s: string)
    ensures CollapseColonSlash(DoubleColonSlash(s)) == s
    decreases |s|
  {
    if ColonSlashAt(s, 0) {
      var t := "://" + DoubleColonSlash(s[2..]);
      assert t[..3] == "://" && t[3..] == DoubleColonSlash(s[2..]);
      CollapseUndoesDouble(s[2..]);
      assert ":/" + s[2..] == s;
    } else if s != [] {
      var d := DoubleColonSlash(s[1..]);
      var t := [s[0]] + d;
      DoubleColonSlashChars(s[1..]);
      assert t[1..] == d;
      assert !(|t| >= 3 && t[..3] == "://") by {
        if |t| >= 3 && t[..3] == "://" {
          assert t[0] == t[..3][0] && t[1] == t[..3][1];
          assert t[1] == d[0] == s[1];
          assert ColonSlashAt(s, 0);
        }
      }
      CollapseUndoesDouble(s[1..]);
      assert [s[0]] + s[1..] == s;
    }
  }

  /** The Toolbox rewriting of one volume flag: the three replacements in source order. */
  function ToolboxPath(s: string): string {
    DoubleColonSlash(ReplaceBackslashes(ReplaceDrive(s)))
  }

  /** After the Toolbox rewriting no backslash and no drive prefix remains. */
  lemma ToolboxPathClean(s: string)
    ensures '\\' !in ToolboxPath(s)
    ensures forall i :: !DriveAt(ToolboxPath(s), i)
  {
    var b := ReplaceBackslashes(ReplaceDrive(s));
    ReplaceBackslashesAt(ReplaceDrive(s));
    DoubleColonSlashChars(b);
    assert '\\' !in b;
  }

  /** The volume list handed to docker: rewritten element by element only under Docker Toolbox. */
  function RewriteVolumes(volumes: seq<string>, toolbox: bool): seq<string> {
    if toolbox then seq(|volumes|, i requires 0 <= i < |volumes| => ToolboxPath(volumes[i]))
    else volumes
  }

  /** The rewriting keeps the number and order of the volumes and rewrites each on its own. */
  lemma RewriteVolumesAt(volumes: seq<string>, toolbox: bool)
    ensures |RewriteVolumes(volumes, toolbox)| == |volumes|
    ensures forall i :: 0 <= i < |volumes| ==>
      RewriteVolumes(volumes, toolbox)[i] == if toolbox then ToolboxPath(volumes[i]) else volumes[i]
  {
  }

  /** Without a colon there is no drive prefix to replace. */
  lemma {:induction false} ReplaceDriveNoColon(s: string)
    requires ':' !in s
    ensures ReplaceDrive(s) == s
    decreases |s|
  {
    if s != [] {
      ReplaceDriveNoColon(s[1..]);
      assert [s[0]] + s[1..] == s;
    }
  }

  lemma {:induction false} ReplaceBackslashesNone(s: string)
    requires '\\' !in s
    ensures ReplaceBackslashes(s) == s
    decreases |s|
  {
    if s != [] {
      ReplaceBackslashesNone(s[1..]);
      assert [s[0]] + s[1..] == s;
    }
  }

  lemma {:induction false} DoubleColonSlashNoColon(s: string)
    requires ':' !in s
    ensures DoubleColonSlash(s) == s
    decreases |s|
  {
    if s != [] {
      DoubleColonSlashNoColon(s[1..]);
      assert [s[0]] + s[1..] == s;
    }
  }

  /** The drive replacement works piece by piece when no drive prefix straddles the cut. */
  lemma {:induction false} ReplaceDriveAppend(a: string, b: string)
    requires !DriveAt(a + b, |a| - 1) && !DriveAt(a + b, |a| - 2)
    ensures ReplaceDrive(a + b) == ReplaceDrive(a) + ReplaceDrive(b)
    decreases |a|
  {
    if a == [] {
      assert a + b == b;
    } else if DriveAt(a, 0) {
      assert DriveAt(a + b, 0);
      assert (a + b)[3..] == a[3..] + b;
      assert DriveAt(a[3..] + b, |a| - 4) == DriveAt(a + b, |a| - 1);
      assert DriveAt(a[3..] + b, |a| - 5) == DriveAt(a + b, |a| - 2);
      ReplaceDriveAppend(a[3..], b);
      assert ReplaceDrive(a + b) == "/c/" + ReplaceDrive(a[3..] + b);
    } else {
      assert !DriveAt(a + b, 0);
      assert (a + b)[1..] == a[1..] + b;
      assert DriveAt(a[1..] + b, |a| - 2) == DriveAt(a + b, |a| - 1);
      assert DriveAt(a[1..] + b, |a| - 3) == DriveAt(a + b, |a| - 2);
      ReplaceDriveAppend(a[1..], b);
      assert ReplaceDrive(a + b) == [a[0]] + ReplaceDrive(a[1..] + b);
    }
  }

  lemma {:induction false} ReplaceBackslashesAppend(a: string, b: string)
    ensures ReplaceBackslashes(a + b) == ReplaceBackslashes(a) + ReplaceBackslashes(b)
    decreases |a|
  {
    if a == [] {
      assert a + b == b;
    } else {
      assert (a + b)[1..] == a[1..] + b;
      ReplaceBackslashesAppend(a[1..], b);
    }
  }

  /** Doubling works piece by piece when no ":/" straddles the cut. */
  lemma {:induction false} DoubleColonSlashAppend(a: string, b: string)
    requires !ColonSlashAt(a + b, |a| - 1)
    ensures DoubleColonSlash(a + b) == DoubleColonSlash(a) + DoubleColonSlash(b)
    decreases |a|
  {
    if a == [] {
      assert a + b == b;
    } else if ColonSlashAt(a, 0) {
      assert (a + b)[2..] == a[2..] + b;
      assert ColonSlashAt(a[2..] + b, |a| - 3) == ColonSlashAt(a + b, |a| - 1);
      DoubleColonSlashAppend(a[2..], b);
      DoubleColonSlashSeparatorStep(a, b);
    } else {
      assert (a + b)[1..] == a[1..] + b;
      assert ColonSlashAt(a[1..] + b, |a| - 2) == ColonSlashAt(a + b, |a| - 1);
      DoubleColonSlashAppend(a[1..], b);
      DoubleColonSlashCharStep(a, b);
    }
  }

  /** One step of DoubleColonSlashAppend: a separator at the front of a. */
  lemma DoubleColonSlashSeparatorStep(a: string, b: string)
    requires ColonSlashAt(a, 0)
    requires DoubleColonSlash(a[2..] + b) == DoubleColonSlash(a[2..]) + DoubleColonSlash(b)
    ensures DoubleColonSlash(a + b) == DoubleColonSlash(a) + DoubleColonSlash(b)
  {
    assert ColonSlashAt(a + b, 0) && (a + b)[2..] == a[2..] + b;
  }

  /** One step of DoubleColonSlashAppend: an ordinary character at the front of a. */
  lemma DoubleColonSlashCharStep(a: string, b: string)
    requires a != [] && !ColonSlashAt(a, 0) && !ColonSlashAt(a + b, |a| - 1)
    requires DoubleColonSlash(a[1..] + b) == DoubleColonSlash(a[1..]) + DoubleColonSlash(b)
    ensures DoubleColonSlash(a + b) == DoubleColonSlash(a) + DoubleColonSlash(b)
  {
    assert !ColonSlashAt(a + b, 0);
    assert (a + b)[1..] == a[1..] + b;
  }

  /** Under the drive replacement a mount of drive C keeps its host path and target. */
  lemma DriveMount(path: string, target: string)
    requires ':' !in path && ':' !in target
    ensures ReplaceDrive("-v C:\\" + path + ":/" + target) == "-v /c/" + path + ":/" + target
  {
    var head, sep := "-v C:\\", ":/";
    assert ReplaceDrive(head) == "-v /c/";
    assert ReplaceDrive(sep) == sep;
    assert !DriveAt(head + path, |head + path| - 1) && !DriveAt(head + path, |head + path| - 2) by {
      if |path| >= 1 { assert (head + path)[|head + path| - 1] == path[|path| - 1]; }
    }
    ReplaceDriveAppend(head, path);
    ReplaceDriveNoColon(path);
    ReplaceDriveAppend(head + path, sep);
    assert !DriveAt(head + path + sep, |head + path + sep| - 2);
    ReplaceDriveAppend(head + path + sep, target);
    ReplaceDriveNoColon(target);
  }

  lemma BackslashMount(path: string, target: string)
    requires '\\' !in target
    ensures ReplaceBackslashes("-v /c/" + path + ":/" + target) == "-v /c/" + ReplaceBackslashes(path) + ":/" + target
  {
    ReplaceBackslashesAppend("-v /c/" + path + ":/", target);
    ReplaceBackslashesAppend("-v /c/" + path, ":/");
    ReplaceBackslashesAppend("-v /c/", path);
    ReplaceBackslashesNone("-v /c/");
    ReplaceBackslashesNone(":/");
    ReplaceBackslashesNone(target);
  }

  /** Between two colon-free texts, the one separator ":/" is doubled and nothing else changes. */
  lemma DoubleSeparator(front: string, target: string)
    requires ':' !in front && ':' !in target
    ensures DoubleColonSlash(front + ":/" + target) == front + "://" + target
  {
    var sep := ":/";
    assert !ColonSlashAt(front + sep, |front| - 1) by {
      if |front| >= 1 { assert (front + sep)[|front| - 1] == front[|front| - 1]; }
    }
    DoubleColonSlashAppend(front, sep);
    DoubleColonSlashNoColon(front);
    assert ColonSlashAt(sep, 0) && sep[2..] == [];
    assert DoubleColonSlash(sep) == "://";
    assert !ColonSlashAt(front + sep + target, |front + sep| - 1) by {
      assert (front + sep + target)[|front + sep| - 1] == '/';
    }
    DoubleColonSlashAppend(front + sep, target);
    DoubleColonSlashNoColon(target);
  }

  lemma SeparatorMount(path: string, target: string)
    requires ':' !in path && ':' !in target
    ensures DoubleColonSlash("-v /c/" + path + ":/" + target) == "-v /c/" + path + "://" + target
  {
    var front := "-v /c/" + path;
    assert ':' !in front by {
      assert ':' !in "-v /c/";
    }
    DoubleSeparator(front, target);
  }

  /**
   * A Windows bind mount under Docker Toolbox: the drive becomes /c/, the
   * host path's backslashes become slashes, and the separator ":/" becomes "://".
   */
  lemma ToolboxMount(path: string, target: string)
    requires ':' !in path && ':' !in target && '\\' !in target
    ensures ToolboxPath("-v C:\\" + path + ":/" + target)
         == "-v /c/" + ReplaceBackslashes(path) + "://" + target
  {
    DriveMount(path, target);
    BackslashMount(path, target);
    ReplaceBackslashesAt(path);
    SeparatorMount(ReplaceBackslashes(path), target);
  }

  /**
   * The drive replacement is global and ignores case: a lower-case `c:\`
   * after other text is rewritten too, not only a leading `C:\`.
   */
  lemma DriveAnywhere(before: string, after: string)
    requires ':' !in before
    ensures ReplaceDrive(before + "c:\\" + after) == before + "/c/" + ReplaceDrive(after)
  {
    var drive := "c:\\" + after;
    assert !DriveAt(before + drive, |before| - 1) && !DriveAt(before + drive, |before| - 2) by {
      if |before| >= 1 { assert (before + drive)[|before| - 1] == before[|before| - 1]; }
    }
    assert before + "c:\\" + after == before + drive;
    ReplaceDriveAppend(before, drive);
    ReplaceDriveNoColon(before);
    assert DriveAt(drive, 0) && drive[3..] == after;
  }
}
