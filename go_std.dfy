/**
 * The pieces of Go's standard library that the plugin-dispatch core relies on
 * (strings.HasPrefix, strings.Replace, strings.Join, strings.Split,
 * strings.ToLower, strings.TrimSpace and path/filepath.Ext), stated over
 * Dafny strings, together with the few facts about them the core needs.
 */
module GoStd {

  datatype Option<+T> = None | Some(value: T)

  /** strings.HasPrefix */
  predicate HasPrefix(s: string, prefix: string) {
    prefix <= s
  }

  /** strings.Replace(s, from, to, -1) for one-character `from` and `to`. */
  function ReplaceAll(s: string, from: char, to: char): (r: string)
    ensures |r| == |s|
    ensures forall i :: 0 <= i < |s| ==> r[i] == (if s[i] == from then to else s[i])
  {
    seq(|s|, i requires 0 <= i < |s| => if s[i] == from then to else s[i])
  }

  /**
   * strings.Replace agrees with splitting at every occurrence and joining the
   * pieces with the replacement.
   */
  lemma {:induction false} ReplaceAllIsSplitJoin(s: string, from: char, to: char)
    ensures ReplaceAll(s, from, to) == Join(Split(s, from), [to])
  {
    if s != [] {
      var rest := Split(s[1..], from);
      ReplaceAllIsSplitJoin(s[1..], from, to);
      var c := if s[0] == from then to else s[0];
      assert ReplaceAll(s, from, to) == [c] + ReplaceAll(s[1..], from, to);
      if s[0] == from {
        assert Split(s, from) == [""] + rest;
        assert ([""] + rest)[1..] == rest;
      } else {
        var parts := [[s[0]] + rest[0]] + rest[1..];
        assert Split(s, from) == parts;
        if |rest| == 1 {
          assert Join(rest, [to]) == rest[0];
        } else {
          assert parts[1..] == rest[1..];
          assert Join(rest, [to]) == rest[0] + [to] + Join(rest[1..], [to]);
          assert Join(parts, [to]) == [s[0]] + rest[0] + [to] + Join(rest[1..], [to]);
        }
      }
    }
  }

  lemma ReplaceAllRemoves(s: string, from: char, to: char)
    requires from != to
    ensures from !in ReplaceAll(s, from, to)
  {
    var r := ReplaceAll(s, from, to);
    forall i | 0 <= i < |r| ensures r[i] != from {
    }
  }

  /** strings.Join: the parts with `sep` between consecutive ones. */
  function Join(parts: seq<string>, sep: string): string
  {
    if parts == [] then ""
    else if |parts| == 1 then parts[0]
    else parts[0] + sep + Join(parts[1..], sep)
  }

  /**
   * strings.Split with a one-character separator: the maximal pieces of `s`
   * between separators. Like Go's, it never returns an empty list
   * (Split("", c) is [""]).
   */
  function Split(s: string, sep: char): (parts: seq<string>)
    ensures |parts| >= 1
    ensures forall i :: 0 <= i < |parts| ==> sep !in parts[i]
  {
    if s == [] then [""]
    else
      var rest := Split(s[1..], sep);
      if s[0] == sep then [""] + rest
      else [[s[0]] + rest[0]] + rest[1..]
  }

  /** Joining the pieces of a split with the separator gives back the string. */
  lemma {:induction false} JoinSplit(s: string, sep: char)
    ensures Join(Split(s, sep), [sep]) == s
  {
    if s != [] {
      var rest := Split(s[1..], sep);
      JoinSplit(s[1..], sep);
      if s[0] == sep {
        assert Split(s, sep) == [""] + rest;
        assert ([""] + rest)[1..] == rest;
      } else {
        var parts := [[s[0]] + rest[0]] + rest[1..];
        assert Split(s, sep) == parts;
        if |rest| == 1 {
          assert Join(rest, [sep]) == rest[0];
        } else {
          assert parts[1..] == rest[1..];
          assert Join(rest, [sep]) == rest[0] + [sep] + Join(rest[1..], [sep]);
          assert Join(parts, [sep]) == [s[0]] + rest[0] + [sep] + Join(rest[1..], [sep]);
        }
        assert s == [s[0]] + s[1..];
      }
    }
  }

  /** A split yields a single piece exactly when the separator does not occur. */
  lemma {:induction false} SplitSingle(s: string, sep: char)
    ensures |Split(s, sep)| == 1 <==> sep !in s
    ensures sep !in s ==> Split(s, sep) == [s]
  {
    if s != [] {
      SplitSingle(s[1..], sep);
      assert s == [s[0]] + s[1..];
    }
  }

  /** Splitting at a first separator: the piece before it, then the split of the rest. */
  lemma {:induction false} SplitAtFirst(a: string, b: string, sep: char)
    requires sep !in a
    ensures Split(a + [sep] + b, sep) == [a] + Split(b, sep)
  {
    if a == [] {
      assert [sep] + b == [sep] + b;
      assert ([sep] + b)[1..] == b;
    } else {
      var s := a + [sep] + b;
      SplitAtFirst(a[1..], b, sep);
      assert s[1..] == a[1..] + [sep] + b;
      assert s[0] == a[0];
      assert [a[0]] + a[1..] == a;
    }
  }

  /** The text after the last `sep` (all of `s` when there is none). */
  function LastPiece(s: string, sep: char): string
  {
    var parts := Split(s, sep);
    parts[|parts| - 1]
  }

  /**
   * The last piece of a split is a suffix of the string that holds no
   * separator and is either the whole string or preceded by a separator.
   */
  lemma {:induction false} LastPieceIsSuffix(s: string, sep: char)
    ensures var b := LastPiece(s, sep);
      && sep !in b
      && |b| <= |s|
      && s[|s| - |b|..] == b
      && (|b| == |s| || s[|s| - |b| - 1] == sep)
  {
    if s != [] {
      var t := s[1..];
      var rest := Split(t, sep);
      var b := LastPiece(s, sep);
      LastPieceIsSuffix(t, sep);
      if s[0] == sep || |rest| > 1 {
        assert b == LastPiece(t, sep) by {
          if s[0] == sep {
            assert Split(s, sep) == [""] + rest;
          } else {
            assert Split(s, sep) == [[s[0]] + rest[0]] + rest[1..];
          }
        }
        assert s[|s| - |b|..] == t[|t| - |b|..];
        if |b| == |t| {
          if s[0] != sep {
            SplitSingle(t, sep);
            assert false;
          }
        } else {
          assert s[|s| - |b| - 1] == t[|t| - |b| - 1];
        }
      } else {
        SplitSingle(t, sep);
        assert rest == [t];
        assert Split(s, sep) == [[s[0]] + t];
        assert b == s;
      }
    }
  }

  /** The last piece after an explicit separator is what follows it. */
  lemma LastPieceAfter(a: string, b: string, sep: char)
    requires sep !in b
    ensures LastPiece(a + [sep] + b, sep) == b
  {
    var s := a + [sep] + b;
    var p := LastPiece(s, sep);
    LastPieceIsSuffix(s, sep);
    assert s[|a|] == sep;
    assert forall i :: |a| < i < |s| ==> s[i] == b[i - |a| - 1];
    assert s[|a| + 1..] == b;
  }

  /** os.IsPathSeparator: '/' everywhere, and also '\' on Windows. */
  predicate IsPathSeparator(c: char, windows: bool) {
    c == '/' || (windows && c == '\\')
  }

  /** The final element of `path`: what follows its last separator (all of it when there is none). */
  function LastElement(path: string, windows: bool): string
  {
    if path == [] || IsPathSeparator(path[|path| - 1], windows) then ""
    else LastElement(path[..|path| - 1], windows) + [path[|path| - 1]]
  }

  /**
   * filepath.Ext: the suffix of the final path element that starts at its
   * last '.', or "" when that element holds no '.'.
   */
  function Ext(path: string, windows: bool): (e: string)
    ensures e == [] || (e[0] == '.' && |e| <= |path| && path[|path| - |e|..] == e)
    ensures forall i :: 0 < i < |e| ==> e[i] != '.' && !IsPathSeparator(e[i], windows)
    ensures e != [] <==> '.' in LastElement(path, windows)
  {
    if path == [] || IsPathSeparator(path[|path| - 1], windows) then ""
    else
      var c := path[|path| - 1];
      var init := path[..|path| - 1];
      assert LastElement(path, windows) == LastElement(init, windows) + [c];
      if c == '.' then "."
      else
        var e := Ext(init, windows);
        if e == "" then "" else e + [c]
  }

  /**
   * Appending an extension (a '.' followed by characters that are neither
   * '.' nor separators) to any path makes it the path's extension.
   */
  lemma {:induction false} ExtOfAppended(path: string, ext: string, windows: bool)
    requires |ext| >= 1 && ext[0] == '.'
    requires forall i :: 0 < i < |ext| ==> ext[i] != '.' && !IsPathSeparator(ext[i], windows)
    ensures Ext(path + ext, windows) == ext
  {
    var p := path + ext;
    var last := ext[|ext| - 1];
    assert p[|p| - 1] == last;
    if |ext| > 1 {
      var shorter := ext[..|ext| - 1];
      assert p[..|p| - 1] == path + shorter;
      ExtOfAppended(path, shorter, windows);
      assert !IsPathSeparator(last, windows) && last != '.';
      assert Ext(p, windows) == shorter + [last];
      assert shorter + [last] == ext;
    }
  }

  /** unicode.ToLower restricted to ASCII letters. */
  function LowerAscii(c: char): char {
    if 'A' <= c <= 'Z' then (c as int + 32) as char else c
  }

  /** strings.ToLower on ASCII letters; every other character is kept. */
  function ToLower(s: string): (r: string)
    ensures |r| == |s|
    ensures forall i :: 0 <= i < |s| ==> r[i] == LowerAscii(s[i])
  {
    seq(|s|, i requires 0 <= i < |s| => LowerAscii(s[i]))
  }

  /**
   * Lower-casing a path does not move its extension: the extension of the
   * lower-cased path is the lower-cased extension, so
   * strings.ToLower(filepath.Ext(p)) may equally be read as the extension of
   * the lower-cased path.
   */
  lemma {:induction false} ToLowerExt(path: string, windows: bool)
    ensures ToLower(Ext(path, windows)) == Ext(ToLower(path), windows)
  {
    if path != [] {
      var c := path[|path| - 1];
      var init := path[..|path| - 1];
      var lower := ToLower(path);
      var lc := LowerAscii(c);
      assert lower == ToLower(init) + [lc] by {
        assert path == init + [c];
        ToLowerSnoc(init, c);
      }
      assert lower[..|lower| - 1] == ToLower(init);
      if IsPathSeparator(c, windows) {
        assert IsPathSeparator(lc, windows);
        assert Ext(lower, windows) == "";
      } else if c == '.' {
        assert lc == '.';
        assert Ext(lower, windows) == ".";
      } else {
        assert !IsPathSeparator(lc, windows) && lc != '.';
        ToLowerExt(init, windows);
        var e := Ext(init, windows);
        assert Ext(lower, windows) == if Ext(ToLower(init), windows) == "" then "" else Ext(ToLower(init), windows) + [lc];
        if e != "" {
          ToLowerSnoc(e, c);
        }
      }
    }
  }

  /** Lower-casing works character by character. */
  lemma ToLowerSnoc(s: string, c: char)
    ensures ToLower(s + [c]) == ToLower(s) + [LowerAscii(c)]
  {
    assert forall i :: 0 <= i < |s| ==> (s + [c])[i] == s[i];
  }

  /** unicode.IsSpace: the Latin-1 spaces and the other White_Space runes. */
  predicate IsSpace(c: char) {
    || c == '\t' || c == '\n' || c == '\U{000B}' || c == '\U{000C}' || c == '\r' || c == ' '
    || c == '\U{0085}' || c == '\U{00A0}' || c == '\U{1680}'
    || ('\U{2000}' <= c <= '\U{200A}')
    || c == '\U{2028}' || c == '\U{2029}' || c == '\U{202F}' || c == '\U{205F}' || c == '\U{3000}'
  }

  /** strings.TrimSpace(s) is empty exactly when every character is a space. */
  predicate IsBlank(s: string) {
    forall i :: 0 <= i < |s| ==> IsSpace(s[i])
  }

  /** No element occurs twice. */
  predicate Distinct<T(==)>(s: seq<T>) {
    forall i, j :: 0 <= i < j < |s| ==> s[i] != s[j]
  }

  /** The elements of a duplicate-free sequence are as many as its length. */
  lemma {:induction false} DistinctCardinality<T>(s: seq<T>)
    requires Distinct(s)
    ensures |set x | x in s| == |s|
  {
    if s != [] {
      var tail := s[1..];
      assert Distinct(tail) by {
        forall i, j | 0 <= i < j < |tail| ensures tail[i] != tail[j] {
          assert tail[i] == s[i + 1] && tail[j] == s[j + 1];
        }
      }
      DistinctCardinality(tail);
      assert s[0] !in tail by {
        forall i | 0 <= i < |tail| ensures tail[i] != s[0] {
          assert tail[i] == s[i + 1];
        }
      }
      assert (set x | x in s) == (set x | x in tail) + {s[0]} by {
        assert s == [s[0]] + tail;
      }
    }
  }
}
