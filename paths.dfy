/** Paths as the launcher builds them: `PathBuf::push` on a Unix system. */
module Paths {
  import Strings

  /** A path that starts at the root, such as the game directory. */
  predicate IsAbsolute(p: string) { |p| > 0 && p[0] == '/' }

  /** A path whose last character is the separator, as `~/.pblm/` is. */
  predicate EndsWithSeparator(p: string) { |p| > 0 && p[|p| - 1] == '/' }

  /** `PathBuf::push(component)` applied to `base`: an absolute component replaces the
      path; a relative one is appended, after a `/` unless `base` is empty or already
      ends in one. */
  function Join(base: string, component: string): string
  {
    if IsAbsolute(component) then component
    else if base == [] || EndsWithSeparator(base) then base + component
    else base + "/" + component
  }

  /** What pushing does to a path: an absolute component replaces it; a relative one is
      kept whole at the end, after the base and one inserted separator exactly when the
      base is non-empty and does not already end in one. */
  lemma JoinShape(base: string, component: string)
    ensures IsAbsolute(component) ==> Join(base, component) == component
    ensures !IsAbsolute(component) ==>
      var p := Join(base, component);
      && |base| + |component| <= |p| <= |base| + |component| + 1
      && base <= p && p[|p| - |component|..] == component
    ensures !IsAbsolute(component) && (base == [] || EndsWithSeparator(base)) ==> Join(base, component) == base + component
    ensures !IsAbsolute(component) && base != [] && !EndsWithSeparator(base) ==> Join(base, component) == base + "/" + component
  {
  }

  /** Below a directory that ends in the separator, pushing a relative component is
      plain string concatenation: the launcher's `push_str` paths agree with the
      installer's `PathBuf` paths. */
  lemma JoinAfterSeparator(base: string, component: string)
    requires EndsWithSeparator(base) && !IsAbsolute(component)
    ensures Join(base, component) == base + component
  {
  }

  /** A file name pushed onto a directory is the last component of the result, so the
      file the downloader writes is named after the URL's last segment. */
  lemma {:induction false} JoinedNameIsLastComponent(dir: string, name: string)
    requires '/' !in name
    ensures var parts := Strings.Split(Join(dir, name), '/'); parts[|parts| - 1] == name
  {
    assert !IsAbsolute(name);
    if dir == [] {
      assert Join(dir, name) == name;
      Strings.SplitWithoutSeparator(name, '/');
    } else if EndsWithSeparator(dir) {
      var d := dir[..|dir| - 1];
      assert Join(dir, name) == d + ['/'] + name;
      Strings.SplitAround(d, '/', name);
    } else {
      assert Join(dir, name) == dir + ['/'] + name;
      Strings.SplitAround(dir, '/', name);
    }
  }
}
