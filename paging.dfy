/** Page arithmetic: GetPage and Min as written, and PageOf, the page
    computation GetPage evidently means to perform. */
module Paging {
  import opened Machine
  import opened Constants

  datatype Option<T> = None | Some(value: T)

  /** What a call of GetPage leaves behind: its return code and the caller's `*page`. */
  datatype PageCall = PageCall(code: int, page: Int16)

  /** GetPage as written. `temp = (int)(Address/PAGE_SIZE)` divides with C's
      truncation and keeps 16 bits (AVR `int`); `page = &temp; page--;` only
      moves the local pointer, so the caller's `*page` is handed back as it was.
      Inside the range where no 16-bit wrap happens, the result fails exactly for
      addresses above MEMSIZE; negative addresses there are accepted. */
  function GetPage(address: Int32, page: Int16): (out: PageCall)
    ensures out.page == page
    ensures out.code == MEMSUCC || out.code == MEMFAIL
    ensures -0x80_0000 <= address < 0x80_0000 ==> (out.code == MEMFAIL <==> address > MEMSIZE)
  {
    var temp := ToInt16(CDiv(address, PAGE_SIZE));
    PageCall(if temp > 511 then MEMFAIL else MEMSUCC, page)
  }

  /** The smaller of two integers. */
  function Min(num1: Int16, num2: Int16): (m: Int16)
    ensures m <= num1 && m <= num2
    ensures m == num1 || m == num2
  {
    if num1 < num2 then num1 else num2
  }

  /** The page holding an address, for the addresses of the array, and nothing
      for any other address. */
  function PageOf(address: Int32): (r: Option<int>)
    ensures r.Some? <==> 0 <= address <= MEMSIZE
    ensures r.Some? ==> 0 <= r.value < NUM_PAGES
    ensures r.Some? ==> r.value * PAGE_SIZE <= address < (r.value + 1) * PAGE_SIZE
  {
    if 0 <= address <= MEMSIZE then Some(address / PAGE_SIZE) else None
  }

  /** For addresses 0 .. 0x7FFFFF GetPage and PageOf agree on which addresses are valid. */
  lemma GetPageAgreesWithPageOf(address: Int32, page: Int16)
    requires 0 <= address < 0x80_0000
    ensures GetPage(address, page).code == MEMSUCC <==> PageOf(address).Some?
  {
  }

  /** GetPage never reports the page: for address 0x100 (page 1) the caller's
      page variable keeps whatever it held, here 7. */
  lemma GetPageNeverStoresPage()
    ensures PageOf(0x100) == Some(1)
    ensures GetPage(0x100, 7) == PageCall(MEMSUCC, 7)
  {
  }

  /** GetPage accepts addresses outside the array: 0x800000 gives a page number of
      32768, which the 16-bit conversion turns into -32768, below the 511 limit; a
      negative address gives a page of at most 0. */
  lemma GetPageAcceptsInvalidAddresses()
    ensures GetPage(0x80_0000, 0).code == MEMSUCC && PageOf(0x80_0000) == None
    ensures GetPage(-1, 0).code == MEMSUCC && PageOf(-1) == None
  {
  }
}
