/**
 * File names: which directory entries are imported as images, how a directory and an
 * entry are joined into a path, and how the exported file is named after the source.
 * The path separator is a parameter; only the single-separator convention is modelled.
 */
module Files {

  /** ASCII lower-casing of one character. */
  function LowerChar(c: char): char {
    if 'A' <= c <= 'Z' then (c as int + 32) as char else c
  }

  function Lower(s: string): string {
    seq(|s|, i requires 0 <= i < |s| => LowerChar(s[i]))
  }

  predicate EndsWith(s: string, suffix: string) {
    |suffix| <= |s| && s[|s| - |suffix|..] == suffix
  }

  /** An entry is imported when its lower-cased name ends in .jpg, .jpeg or .png. */
  predicate IsImageName(name: string) {
    var n := Lower(name);
    EndsWith(n, ".jpg") || EndsWith(n, ".jpeg") || EndsWith(n, ".png")
  }

  /** The directory entries kept by the import, in listing order. */
  function ImageNames(names: seq<string>): (r: seq<string>)
    ensures |r| <= |names|
    ensures forall n :: n in r <==> n in names && IsImageName(n)
  {
    if names == [] then []
    else (if IsImageName(names[0]) then [names[0]] else []) + ImageNames(names[1..])
  }

  /**
   * The import filter commutes with concatenation of listings; with the one-entry case this
   * says it keeps exactly the image names and keeps them in listing order.
   */
  lemma {:induction false} ImageNamesAppend(a: seq<string>, b: seq<string>)
    ensures ImageNames(a + b) == ImageNames(a) + ImageNames(b)
  {
    if a == [] {
      assert a + b == b;
    } else {
      assert (a + b)[0] == a[0];
      assert (a + b)[1..] == a[1..] + b;
      ImageNamesAppend(a[1..], b);
    }
  }

  /** A listing entry of one name is kept exactly when it is an image name. */
  lemma ImageNamesSingle(name: string)
    ensures ImageNames([name]) == if IsImageName(name) then [name] else []
  {
    assert [name][1..] == [];
  }

  /** A listing with an upper-case .JPG, a text file and a .png keeps the two images, in order. */
  lemma ImageNamesExample()
    ensures ImageNames(["a.JPG", "notes.txt", "b.png"]) == ["a.JPG", "b.png"]
  {
    ExampleNames();
    var last := ["b.png"];
    assert last[1..] == [];
    assert ImageNames(last) == last;
    var tail := ["notes.txt", "b.png"];
    assert tail[1..] == last;
    assert ImageNames(tail) == last;
    var all := ["a.JPG", "notes.txt", "b.png"];
    assert all[1..] == tail;
  }

  lemma ExampleNames()
    ensures IsImageName("a.JPG") && !IsImageName("notes.txt") && IsImageName("b.png")
  {
    assert Lower("a.JPG") == "a.jpg";
    assert Lower("notes.txt") == "notes.txt";
    assert Lower("b.png") == "b.png";
  }

  /** `os.path.join(dir, name)` for an entry name that is a relative file name. */
  function Join(dir: string, name: string, sep: char): string {
    if dir == [] || dir[|dir| - 1] == sep then dir + name else dir + [sep] + name
  }

  /** The image paths an import produces: each kept entry joined to the directory. */
  function Paths(dir: string, names: seq<string>, sep: char): (r: seq<string>)
    ensures |r| == |names|
    ensures forall i :: 0 <= i < |names| ==> r[i] == Join(dir, names[i], sep)
  {
    seq(|names|, i requires 0 <= i < |names| => Join(dir, names[i], sep))
  }

  /** `os.path.basename`: the part of the path after its last separator. */
  function BaseName(path: string, sep: char): (r: string)
    ensures |r| <= |path| && r == path[|path| - |r|..]
    ensures sep !in r
    ensures |r| < |path| ==> path[|path| - |r| - 1] == sep
  {
    if path == [] then []
    else if path[|path| - 1] == sep then []
    else BaseName(path[..|path| - 1], sep) + [path[|path| - 1]]
  }

  /** The base name of a joined path is the entry name it was joined from. */
  lemma BaseNameOfJoin(dir: string, name: string, sep: char)
    requires sep !in name
    ensures BaseName(Join(dir, name, sep), sep) == name
  {
    var prefix := if dir == [] || dir[|dir| - 1] == sep then dir else dir + [sep];
    assert Join(dir, name, sep) == prefix + name;
    BaseNameAfterSeparator(prefix, name, sep);
  }

  lemma {:induction false} BaseNameAfterSeparator(prefix: string, name: string, sep: char)
    requires prefix == [] || prefix[|prefix| - 1] == sep
    requires sep !in name
    ensures BaseName(prefix + name, sep) == name
  {
    var p := prefix + name;
    if name == [] {
      assert p == prefix;
    } else {
      var init := name[..|name| - 1];
      var c := name[|name| - 1];
      assert name == init + [c];
      assert sep !in init && c != sep;
      assert p == (prefix + init) + [c];
      assert p[|p| - 1] == c;
      assert p[..|p| - 1] == prefix + init;
      BaseNameAfterSeparator(prefix, init, sep);
      assert BaseName(p, sep) == BaseName(prefix + init, sep) + [c];
    }
  }

  /** `name.split('.')[0]`: the part of the name before its first dot. */
  function Stem(name: string): (r: string)
    ensures |r| <= |name| && r == name[..|r|]
    ensures '.' !in r
    ensures |r| < |name| ==> name[|r|] == '.'
  {
    if name == [] || name[0] == '.' then []
    else [name[0]] + Stem(name[1..])
  }

  const PngExtension := ".png"

  /** The name of the exported file: the source's base name up to its first dot, then .png. */
  function OutputName(path: string, sep: char): (r: string)
    ensures |r| >= |PngExtension| && r[|r| - |PngExtension|..] == PngExtension
    ensures var stem := r[..|r| - |PngExtension|];
            var base := BaseName(path, sep);
            && '.' !in stem && sep !in stem
            && |stem| <= |base| && stem == base[..|stem|]
            && (|stem| < |base| ==> base[|stem|] == '.')
  {
    Stem(BaseName(path, sep)) + PngExtension
  }

  /** An image imported from a listing is exported under its entry name's stem. */
  lemma OutputNameOfImport(dir: string, name: string, sep: char)
    requires sep !in name
    ensures OutputName(Join(dir, name, sep), sep) == Stem(name) + PngExtension
  {
    BaseNameOfJoin(dir, name, sep);
  }
}
