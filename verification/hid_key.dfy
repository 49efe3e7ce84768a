/**
 * Fixed-width integers of the Rust source and the control identity
 * `HidKey` (declared in src/key_mapper.rs and shared by the report
 * decoder, the name dictionaries and the mapper).
 */
module HidKeys {
  type u16 = x: int | 0 <= x < 0x1_0000
  type u32 = x: int | 0 <= x < 0x1_0000_0000
  type i32 = x: int | -0x8000_0000 <= x < 0x8000_0000

  /** A control identity: a usage within a usage page (USB HID Usage Tables 1.12). */
  datatype HidKey = HidKey(usagePage: u16, usage: u16)

  /** Usage pages the daemon knows: Keyboard/Keypad, Consumer, and Apple's vendor page. */
  const KEYBOARD_PAGE: u16 := 0x07
  const CONSUMER_PAGE: u16 := 0x0C
  const APPLE_VENDOR_PAGE: u16 := 0xFF00
}
