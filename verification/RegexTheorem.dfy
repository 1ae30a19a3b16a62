// From a pattern to its matches.
module RegexTheorem {
  import opened Wrappers
  import opened RegexNfa
  import opened RegexSim
  import opened RegexCode
  import opened RegexText
  import opened RegexExact
  import opened RegexCompiler

  // The longest stretch from `start` that the expression denotes.
  ghost predicate LongestMatch(word: char -> bool, text: string, alts: seq<Branch>, start: nat, r: Option<nat>) {
    && (r.Some? ==> MatchesAlts(word, text, alts, start, r.value))
    && (forall e: nat | MatchesAlts(word, text, alts, start, e) :: r.Some? && e <= r.value)
  }

  // Writing an expression down, compiling the text and simulating the automaton finds its longest match.
  method MatchPattern(pattern: string, word: char -> bool, text: string, start: nat, ghost alts: seq<Branch>)
      returns (ok: bool, r: Option<nat>)
    requires start <= |text|
    ensures alts != [] && WellAlts(alts) && RegularAlts(alts) && pattern == PrintAlts(alts) ==> ok && LongestMatch(word, text, alts, start, r)
  {
    hide CodeAll, PrintAlts, WellAlts, RegularAlts, Accepts;
    var states := CompilePattern(pattern, alts);
    if states.None? {
      return false, None;
    }
    var nfa := Nfa(states.value, word);
    r := MatchAt(nfa, text, start);
    ok := true;
    if alts != [] && WellAlts(alts) && RegularAlts(alts) && pattern == PrintAlts(alts) {
      forall e: nat ensures Accepts(nfa, text, start, e) <==> MatchesAlts(word, text, alts, start, e) {
        CompiledExact(alts, word, text, start, e);
      }
    }
  }
}
