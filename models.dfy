/** The enumerations shared by the robot configuration and services (core/models.py). */
module Models {

  /** The tool currently mounted on the arm. */
  datatype AttachmentType = Marker | Eraser | Pen | Empty

  /** Named speed presets. */
  datatype SpeedType = Fast | Normal | Slow

  /** Logical pose/activity state of the arm. */
  datatype RobotState = Moving | Paused | Centred | Docked | ToolChange | Unknown | Calculating
}
