/** The skills reconciliation both generators perform before filling the
    template: for each category, the provider's lower-case alias, else the
    interface's own key, else the default list. The two generators carry the
    same code. */
module Reconcile {
  import opened Wrappers
  import opened Types

  /** The lower-case key the provider is asked to use for each category. */
  function Alias(c: Category): string {
    match c
    case Languages => "languages"
    case Frontend => "frontend"
    case Backend => "backend"
    case AiMl => "ai/ml"
    case Database => "databases"
    case CloudDevOps => "cloud"
    case Tools => "tools"
  }

  lemma KeysDistinct(c: Category, d: Category)
    requires c != d
    ensures Alias(c) != Alias(d) && CapitalKey(c) != Alias(d)
  {
  }

  /** `aiSkills[key]`: a missing key reads as undefined, like JSON `null`. */
  function Lookup(p: ProviderSkills, key: string): Option<seq<string>> {
    if key in p then p[key] else None
  }

  /** `aiSkills.alias || aiSkills.Key || DEFAULT_CV.skills.Key`. Arrays are
      truthy even when empty, so a provider's `[]` is kept. */
  function Pick(defaults: Skills, p: ProviderSkills, c: Category): seq<string> {
    match Lookup(p, Alias(c))
    case Some(xs) => xs
    case None =>
      match Lookup(p, CapitalKey(c))
      case Some(xs) => xs
      case None => Get(defaults, c)
  }

  function ReconcileSkills(defaults: Skills, p: ProviderSkills): Skills {
    Skills(Pick(defaults, p, Languages), Pick(defaults, p, Frontend), Pick(defaults, p, Backend),
           Pick(defaults, p, AiMl), Pick(defaults, p, Database), Pick(defaults, p, CloudDevOps),
           Pick(defaults, p, Tools))
  }

  /** Each category independently: the alias, else the capitalised key, else the default. */
  lemma ReconcileCategory(defaults: Skills, p: ProviderSkills, c: Category)
    ensures Lookup(p, Alias(c)).Some? ==>
              Get(ReconcileSkills(defaults, p), c) == Lookup(p, Alias(c)).value
    ensures Lookup(p, Alias(c)).None? && Lookup(p, CapitalKey(c)).Some? ==>
              Get(ReconcileSkills(defaults, p), c) == Lookup(p, CapitalKey(c)).value
    ensures Lookup(p, Alias(c)).None? && Lookup(p, CapitalKey(c)).None? ==>
              Get(ReconcileSkills(defaults, p), c) == Get(defaults, c)
  {
  }

  /** Supplying only one category's alias sets that category and leaves the
      other six at their defaults; this holds for a supplied `[]` too. */
  lemma ReconcileOneAlias(defaults: Skills, c: Category, xs: seq<string>)
    ensures Get(ReconcileSkills(defaults, map[Alias(c) := Some(xs)]), c) == xs
    ensures forall d: Category :: d != c ==>
              Get(ReconcileSkills(defaults, map[Alias(c) := Some(xs)]), d) == Get(defaults, d)
  {
    var p := map[Alias(c) := Some(xs)];
    forall d: Category | d != c
      ensures Get(ReconcileSkills(defaults, p), d) == Get(defaults, d)
    {
      KeysDistinct(d, c);
      ReconcileCategory(defaults, p, d);
    }
  }

  /** A skills object with no known key, or only `null` under the known
      keys, changes nothing; the empty object is one such. */
  lemma ReconcileEmpty(defaults: Skills, p: ProviderSkills)
    requires forall c: Category :: Lookup(p, Alias(c)).None? && Lookup(p, CapitalKey(c)).None?
    ensures ReconcileSkills(defaults, p) == defaults
  {
  }
}
