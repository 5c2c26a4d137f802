/** SI_NetLine: a wire of a schematic net segment between two schematic netpoints. */
module SchematicNetLines {
  import opened Results
  import opened Geometry
  import opened Uuids
  import NetGraph

  /** A schematic netpoint; only its position matters to the line. */
  class NetPoint {
    var position: Point

    constructor (position: Point)
      ensures this.position == position
    {
      this.position := position;
    }
  }

  /** Unlike a board netline, a schematic netline's width may be zero. */
  class NetLine {
    const uuid: Uuid
    const start: NetPoint
    const end: NetPoint
    var width: UnsignedLength

    constructor (uuid: Uuid, start: NetPoint, end: NetPoint, width: UnsignedLength)
      ensures this.uuid == uuid && this.start == start && this.end == end && this.width == width
    {
      this.uuid := uuid;
      this.start := start;
      this.end := end;
      this.width := width;
    }

    /** getOtherPoint: the opposite endpoint, or null for a netpoint the line does not touch. */
    function OtherPoint(p: NetPoint): (q: NetPoint?)
      ensures q != null <==> p == start || p == end
      ensures q != null ==> NetGraph.OtherPoint((start, end), p) == Some(q as NetPoint)
    {
      if p == start then end else if p == end then start else null
    }

    /** The position the netline reports: the centre of its endpoints. */
    function Position(): (c: Point)
      reads start, end
      ensures c == Centre(end.position, start.position)
      ensures -1 <= start.position.x + end.position.x - 2 * c.x <= 1
      ensures -1 <= start.position.y + end.position.y - 2 * c.y <= 1
      ensures start.position == end.position ==> c == start.position
    {
      CentreSymmetric(start.position, end.position);
      Centre(start.position, end.position)
    }

    /** setWidth: any unsigned width, zero included. */
    method SetWidth(w: UnsignedLength)
      modifies this
      ensures width == w
    {
      width := w;
    }
  }
}
