/** The three confidence tiers both scorers report. */
module Tiers {

  datatype Level = Low | Medium | High

  /** Position of a tier in the order Low < Medium < High. */
  function Order(l: Level): nat {
    match l
    case Low => 0
    case Medium => 1
    case High => 2
  }
}
