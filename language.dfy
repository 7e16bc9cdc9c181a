/**
 * The hydration-safe language state of the site: every render starts in Spanish and not
 * hydrated; once mounted, an effect marks the state hydrated and restores a stored
 * preference; `setLanguage` switches the language and persists it once hydrated.
 * Browser storage is a field that reads and writes may fail to reach (the failure is a
 * parameter of each step), and React's effect scheduling is an explicit commit step.
 */
module LanguageState {
  import opened Wrappers

  /** `Language`. */
  datatype Language = En | Es | Fr

  function Code(l: Language): string {
    match l
    case En => "en"
    case Es => "es"
    case Fr => "fr"
  }

  /** `["en", "es", "fr"].includes(stored)` with the matching language. */
  function ParseLanguage(s: string): (r: Option<Language>)
    ensures r.Some? <==> s == "en" || s == "es" || s == "fr"
    ensures r.Some? ==> Code(r.value) == s
  {
    if s == "en" then Some(En) else if s == "es" then Some(Es) else if s == "fr" then Some(Fr) else None
  }

  lemma CodeRoundTrip(l: Language)
    ensures ParseLanguage(Code(l)) == Some(l)
  {
  }

  /** The storage key of the preference. */
  const StorageKey: string := "sb-language"
  const ProviderMissing: string := "useLanguage must be used within a LanguageProvider"

  /**
   * The hook's state, the value stored under the key, the document's `lang` attribute, and
   * the `language` the effect last ran with (the dependency React compares).
   */
  datatype HookState = HookState(
    language: Language, isHydrated: bool, stored: Option<string>, documentLang: Option<string>,
    effectRanWith: Option<Language>)

  /** The first render: Spanish, not hydrated, the effect not yet run. */
  function Initial(stored: Option<string>, documentLang: Option<string>): (s: HookState)
    ensures s.language == Es && !s.isHydrated && s.effectRanWith.None?
    ensures s.stored == stored && s.documentLang == documentLang
  {
    HookState(Es, false, stored, documentLang, None)
  }

  /** The body of the effect: hydrated, then a valid different stored language is restored. */
  function Restore(s: HookState, readThrows: bool): (r: HookState)
    ensures r.isHydrated && r.effectRanWith == Some(s.language)
    ensures r.stored == s.stored && r.documentLang == s.documentLang
    // a failing read and an invalid or missing value leave the language alone
    ensures readThrows || s.stored.None? || ParseLanguage(s.stored.value).None? ==> r.language == s.language
    // a readable valid value is the language afterwards
    ensures !readThrows && s.stored.Some? && ParseLanguage(s.stored.value).Some? ==>
      r.language == ParseLanguage(s.stored.value).value
  {
    var language :=
      if !readThrows && s.stored.Some? && ParseLanguage(s.stored.value).Some?
         && ParseLanguage(s.stored.value).value != s.language
      then ParseLanguage(s.stored.value).value
      else s.language;
    HookState(language, true, s.stored, s.documentLang, Some(s.language))
  }

  /**
   * A commit as written: the effect depends on `language`, so it runs after the first
   * render and again after every render whose language differs from its last run.
   */
  function CommitAsWritten(s: HookState, readThrows: bool): (r: HookState)
    ensures s.effectRanWith == Some(s.language) ==> r == s
    ensures s.effectRanWith != Some(s.language) ==> r == Restore(s, readThrows)
  {
    if s.effectRanWith == Some(s.language) then s else Restore(s, readThrows)
  }

  /** A commit as evidently intended: the effect restores the preference once, after hydration. */
  function Commit(s: HookState, readThrows: bool): (r: HookState)
    ensures s.effectRanWith.Some? ==> r == s
    ensures s.effectRanWith.None? ==> r == Restore(s, readThrows)
  {
    if s.effectRanWith.Some? then s else Restore(s, readThrows)
  }

  /** `setLanguage`: the language always changes; storage and `lang` only once hydrated. */
  function Switch(s: HookState, l: Language, writeThrows: bool): (r: HookState)
    ensures r.language == l && r.isHydrated == s.isHydrated && r.effectRanWith == s.effectRanWith
    ensures !s.isHydrated || writeThrows ==> r.stored == s.stored && r.documentLang == s.documentLang
    ensures s.isHydrated && !writeThrows ==> r.stored == Some(Code(l)) && r.documentLang == Some(Code(l))
  {
    if s.isHydrated && !writeThrows then HookState(l, true, Some(Code(l)), Some(Code(l)), s.effectRanWith)
    else HookState(l, s.isHydrated, s.stored, s.documentLang, s.effectRanWith)
  }

  /** The first commit hydrates and restores a readable valid preference. */
  lemma FirstCommitRestores(stored: Option<string>, documentLang: Option<string>, readThrows: bool)
    ensures Commit(Initial(stored, documentLang), readThrows).isHydrated
    ensures CommitAsWritten(Initial(stored, documentLang), readThrows) ==
      Commit(Initial(stored, documentLang), readThrows)
    ensures !readThrows && stored.Some? && ParseLanguage(stored.value).Some? ==>
      Commit(Initial(stored, documentLang), readThrows).language == ParseLanguage(stored.value).value
    ensures readThrows || stored.None? || ParseLanguage(stored.value).None? ==>
      Commit(Initial(stored, documentLang), readThrows).language == Es
  {
  }

  /** The re-run after a restoring commit changes nothing but the recorded dependency. */
  lemma RestoreSettles(s: HookState)
    ensures Restore(Restore(s, false), false).language == Restore(s, false).language
  {
  }

  /** Each `setLanguage` while hydrated, with storage writable. */
  function SetAll(s: HookState, ls: seq<Language>): (r: HookState)
    ensures r.isHydrated == s.isHydrated
    decreases |ls|
  {
    if ls == [] then s else SetAll(Switch(s, ls[0], false), ls[1..])
  }

  /** After a run of `setLanguage` calls while hydrated, storage and `lang` hold the last one. */
  lemma {:induction false} LastSetIsStored(s: HookState, ls: seq<Language>)
    requires s.isHydrated && ls != []
    ensures SetAll(s, ls).language == ls[|ls| - 1]
    ensures SetAll(s, ls).stored == Some(Code(ls[|ls| - 1]))
    ensures SetAll(s, ls).documentLang == Some(Code(ls[|ls| - 1]))
    decreases |ls|
  {
    if |ls| > 1 {
      LastSetIsStored(Switch(s, ls[0], false), ls[1..]);
    }
  }

  /** A persisted choice survives the effect's re-run, as written and as intended. */
  lemma PersistedChoiceKept(s: HookState, l: Language, readThrows: bool)
    requires s.isHydrated
    ensures CommitAsWritten(Switch(s, l, false), readThrows).language == l
    ensures s.effectRanWith.Some? ==> Commit(Switch(s, l, false), readThrows).language == l
  {
    CodeRoundTrip(l);
  }

  /**
   * As written, a choice that could not be persisted is undone: the effect re-runs for the
   * new language, reads the older stored preference and switches back to it. With the
   * effect run once, the choice stands.
   */
  lemma UnpersistedChoiceReverted(s: HookState, l: Language, m: Language)
    requires s.isHydrated && s.effectRanWith == Some(s.language) && s.language != l
    requires s.stored == Some(Code(m)) && l != m
    ensures CommitAsWritten(Switch(s, l, true), false).language == m
    ensures Commit(Switch(s, l, true), false).language == l
  {
    CodeRoundTrip(m);
  }

  /**
   * A visitor whose stored preference is English picks French while storage refuses
   * writes: as written the page is back in English after the next commit.
   */
  lemma FrenchChoiceLostAsWritten()
    ensures var s := CommitAsWritten(CommitAsWritten(Initial(Some("en"), None), false), false);
      s.language == En && CommitAsWritten(Switch(s, Fr, true), false).language == En
    ensures var s := Commit(Commit(Initial(Some("en"), None), false), false);
      s.language == En && Commit(Switch(s, Fr, true), false).language == Fr
  {
  }

  /** The provider's context value. */
  datatype ContextValue = ContextValue(language: Language, isHydrated: bool)

  /** `useLanguage`: the context, or the error thrown outside a provider. */
  function UseLanguage(ctx: Option<ContextValue>): (r: Result<ContextValue, string>)
    ensures ctx.None? <==> r == Failure(ProviderMissing)
    ensures ctx.Some? ==> r == Success(ctx.value)
  {
    if ctx.None? then Failure(ProviderMissing) else Success(ctx.value)
  }

  /** `LanguageProvider` and its hook state; React's render and commit cycle is driven from outside. */
  class LanguageProvider {
    var state: HookState

    constructor(stored: Option<string>, documentLang: Option<string>)
      ensures state == Initial(stored, documentLang)
    {
      state := Initial(stored, documentLang);
    }

    /** The effects of one commit. */
    method RunEffects(readThrows: bool)
      modifies this
      ensures state == Commit(old(state), readThrows)
    {
      if state.effectRanWith.None? {
        var language := state.language;
        if !readThrows && state.stored.Some? {
          var parsed := ParseLanguage(state.stored.value);
          if parsed.Some? && parsed.value != state.language {
            language := parsed.value;
          }
        }
        state := HookState(language, true, state.stored, state.documentLang, Some(state.language));
      }
    }

    /** `setLanguage`. */
    method SetLanguage(l: Language, writeThrows: bool)
      modifies this
      ensures state == Switch(old(state), l, writeThrows)
    {
      if state.isHydrated && !writeThrows {
        state := HookState(l, true, Some(Code(l)), Some(Code(l)), state.effectRanWith);
      } else {
        state := state.(language := l);
      }
    }

    /** What `useLanguage` hands to a component inside the provider. */
    function Context(): (c: ContextValue)
      reads this
      ensures c.language == state.language && c.isHydrated == state.isHydrated
    {
      ContextValue(state.language, state.isHydrated)
    }
  }
}
