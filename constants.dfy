/** The module-level constants of the game: frame rate, window size, drag
    coefficient and the colour palette. */
module Constants {

  /** Frames per second; the drag term is divided by it. */
  const Fps: int := 30

  /** Window size; also the walls the targets and projectiles bounce off. */
  const Width: int := 800
  const Height: int := 600

  /** Coefficient of aerodynamic drag. */
  const K: real := 0.07

  /** The colours the game names. Their RGB values only matter for drawing. */
  datatype Color = Red | Blue | Yellow | Green | Magenta | Cyan | Black | White | Grey

  /** The palette a projectile's colour is drawn from. */
  const GameColors: seq<Color> := [Blue, Yellow, Green, Magenta, Cyan]

  function Abs(a: real): (r: real)
    ensures r >= 0.0 && (r == a || r == -a)
  {
    if a < 0.0 then -a else a
  }

  function Min(a: int, b: int): (m: int)
    ensures m <= a && m <= b && (m == a || m == b)
  {
    if a < b then a else b
  }
}
