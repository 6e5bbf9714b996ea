/** Mutable string maps, as Go maps are. */
module StringMaps {

  class StringMap {
    var m: map<string, string>

    constructor (m: map<string, string>)
      ensures this.m == m
    {
      this.m := m;
    }
  }
}
