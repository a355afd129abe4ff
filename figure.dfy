/** A stand-in for the one matplotlib object the plotting functions draw
    on. Only what the model observes is kept: the curves handed to
    `ax.plot`, in order, the x-axis limits given to `ax.set_xlim`, and
    whether the x axis runs from right to left. */
module Figure {
  import opened PyRuntime

  /** One sampled curve with the label (`name`) it is plotted under: the
      `(x, y, label)` tuples of the XRD and FTIR code and the
      `(label, wavelength, absorbance)` tuples of the UV-Vis code. */
  datatype Curve = Curve(x: seq<real>, y: seq<real>, name: string)

  /** The two columns `np.loadtxt(..., unpack = True)` reads from one data file. */
  datatype Table = Table(x: seq<real>, y: seq<real>)

  class Axes {
    var lines: seq<Curve>
    var xlim: Option<(real, real)>
    var xInverted: bool

    constructor ()
      ensures lines == [] && xlim == None && !xInverted
    {
      lines := [];
      xlim := None;
      xInverted := false;
    }

    /** `ax.plot(x, y, label = name)`: adds one curve after those drawn so far. */
    method Plot(x: seq<real>, y: seq<real>, name: string)
      modifies this
      ensures lines == old(lines) + [Curve(x, y, name)]
      ensures xlim == old(xlim) && xInverted == old(xInverted)
    {
      lines := lines + [Curve(x, y, name)];
    }

    /** `ax.set_xlim(left, right)`. */
    method SetXlim(left: real, right: real)
      modifies this
      ensures xlim == Some((left, right))
      ensures lines == old(lines) && xInverted == old(xInverted)
    {
      xlim := Some((left, right));
    }

    /** `ax.invert_xaxis()`: flips the direction of the x axis. */
    method InvertXaxis()
      modifies this
      ensures xInverted == !old(xInverted)
      ensures lines == old(lines) && xlim == old(xlim)
    {
      xInverted := !xInverted;
    }
  }
}
