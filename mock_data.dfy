/** The records the dashboard works on and the constant data it is loaded with
    (app/frontend/data/dashboard-mock-data.ts). Fractional quantities are `real`,
    which Dafny treats as exact rationals. */
module MockData {

  /** The three values of `Task.status`. */
  datatype Status = Todo | InProgress | Done

  /** The four values of `Task.priority`. */
  datatype Priority = Low | Medium | High | Urgent

  /** The string each status is written as in the data. */
  function StatusName(s: Status): string {
    match s
    case Todo => "todo"
    case InProgress => "in-progress"
    case Done => "done"
  }

  /** The string each priority is written as in the data. */
  function PriorityName(p: Priority): string {
    match p
    case Low => "low"
    case Medium => "medium"
    case High => "high"
    case Urgent => "urgent"
  }

  datatype Assignee = Assignee(name: string, avatar: string, email: string)

  /** A task; `dueDate` is a `yyyy-MM-dd` day key. */
  datatype Task = Task(
    id: string,
    title: string,
    description: string,
    status: Status,
    priority: Priority,
    dueDate: string,
    assignee: Assignee,
    tags: seq<string>,
    progress: int,
    timeEstimate: real,
    timeSpent: real)

  datatype DailyGoal = DailyGoal(
    id: string,
    title: string,
    target: real,
    current: real,
    unit: string,
    icon: string,
    color: string)

  datatype ProductivityMetric = ProductivityMetric(
    date: string,
    tasksCompleted: int,
    hoursWorked: real,
    focusScore: int)

  const Task1: Task :=
    Task(
      id := "1",
      title := "Design new landing page",
      description := "Create wireframes and mockups for the new marketing landing page",
      status := InProgress,
      priority := High,
      dueDate := "2025-01-15",
      assignee := Assignee(
        "Sarah Chen",
        "https://api.dicebear.com/7.x/avataaars/svg?seed=Sarah",
        "sarah@example.com"),
      tags := ["design", "ui/ux", "marketing"],
      progress := 65,
      timeEstimate := 8.0,
      timeSpent := 5.2)

  const Task2: Task :=
    Task(
      id := "2",
      title := "Fix authentication bug",
      description := "Users reporting issues with social login integration",
      status := Todo,
      priority := Urgent,
      dueDate := "2025-01-12",
      assignee := Assignee(
        "Alex Thompson",
        "https://api.dicebear.com/7.x/avataaars/svg?seed=Alex",
        "alex@example.com"),
      tags := ["bug", "backend", "auth"],
      progress := 0,
      timeEstimate := 4.0,
      timeSpent := 0.0)

  const Task3: Task :=
    Task(
      id := "3",
      title := "Write API documentation",
      description := "Document all REST endpoints for v2 API",
      status := InProgress,
      priority := Medium,
      dueDate := "2025-01-20",
      assignee := Assignee(
        "Maria Garcia",
        "https://api.dicebear.com/7.x/avataaars/svg?seed=Maria",
        "maria@example.com"),
      tags := ["documentation", "api"],
      progress := 40,
      timeEstimate := 6.0,
      timeSpent := 2.4)

  const Task4: Task :=
    Task(
      id := "4",
      title := "Implement search feature",
      description := "Add full-text search with filters and sorting",
      status := Todo,
      priority := High,
      dueDate := "2025-01-18",
      assignee := Assignee(
        "James Wilson",
        "https://api.dicebear.com/7.x/avataaars/svg?seed=James",
        "james@example.com"),
      tags := ["feature", "frontend", "backend"],
      progress := 0,
      timeEstimate := 12.0,
      timeSpent := 0.0)

  const Task5: Task :=
    Task(
      id := "5",
      title := "Optimize database queries",
      description := "Improve performance of slow queries identified in monitoring",
      status := Done,
      priority := Medium,
      dueDate := "2025-01-10",
      assignee := Assignee(
        "Priya Patel",
        "https://api.dicebear.com/7.x/avataaars/svg?seed=Priya",
        "priya@example.com"),
      tags := ["performance", "database"],
      progress := 100,
      timeEstimate := 5.0,
      timeSpent := 4.8)

  const Task6: Task :=
    Task(
      id := "6",
      title := "Update user onboarding flow",
      description := "Simplify the registration process and add progress indicators",
      status := InProgress,
      priority := Medium,
      dueDate := "2025-01-22",
      assignee := Assignee(
        "Sarah Chen",
        "https://api.dicebear.com/7.x/avataaars/svg?seed=Sarah",
        "sarah@example.com"),
      tags := ["ux", "frontend"],
      progress := 30,
      timeEstimate := 10.0,
      timeSpent := 3.0)

  const Task7: Task :=
    Task(
      id := "7",
      title := "Set up CI/CD pipeline",
      description := "Configure automated testing and deployment with GitHub Actions",
      status := Done,
      priority := High,
      dueDate := "2025-01-08",
      assignee := Assignee(
        "Alex Thompson",
        "https://api.dicebear.com/7.x/avataaars/svg?seed=Alex",
        "alex@example.com"),
      tags := ["devops", "automation"],
      progress := 100,
      timeEstimate := 8.0,
      timeSpent := 7.5)

  const Task8: Task :=
    Task(
      id := "8",
      title := "Create mobile responsive design",
      description := "Ensure all components work well on mobile devices",
      status := Todo,
      priority := Low,
      dueDate := "2025-01-25",
      assignee := Assignee(
        "Maria Garcia",
        "https://api.dicebear.com/7.x/avataaars/svg?seed=Maria",
        "maria@example.com"),
      tags := ["mobile", "design", "responsive"],
      progress := 0,
      timeEstimate := 15.0,
      timeSpent := 0.0)

  const Task9: Task :=
    Task(
      id := "9",
      title := "Add unit tests",
      description := "Increase test coverage to 80% for core modules",
      status := InProgress,
      priority := Medium,
      dueDate := "2025-01-17",
      assignee := Assignee(
        "James Wilson",
        "https://api.dicebear.com/7.x/avataaars/svg?seed=James",
        "james@example.com"),
      tags := ["testing", "quality"],
      progress := 55,
      timeEstimate := 10.0,
      timeSpent := 5.5)

  const Task10: Task :=
    Task(
      id := "10",
      title := "Migrate to TypeScript",
      description := "Convert JavaScript codebase to TypeScript for better type safety",
      status := Todo,
      priority := Low,
      dueDate := "2025-02-01",
      assignee := Assignee(
        "Priya Patel",
        "https://api.dicebear.com/7.x/avataaars/svg?seed=Priya",
        "priya@example.com"),
      tags := ["refactoring", "typescript"],
      progress := 0,
      timeEstimate := 20.0,
      timeSpent := 0.0)

  /** The `tasks` fixture. */
  const Tasks: seq<Task> :=
    [Task1, Task2, Task3, Task4, Task5, Task6, Task7, Task8, Task9, Task10]

  /** The `dailyGoals` fixture. */
  const DailyGoals: seq<DailyGoal> :=
    [
      DailyGoal("1", "Tasks Completed", 8.0, 5.0, "tasks", "CheckCircle",
        "bg-gradient-to-r from-green-400 to-green-600"),
      DailyGoal("2", "Focus Time", 6.0, 4.5, "hours", "Clock",
        "bg-gradient-to-r from-blue-400 to-blue-600"),
      DailyGoal("3", "Code Reviews", 4.0, 3.0, "reviews", "GitPullRequest",
        "bg-gradient-to-r from-purple-400 to-purple-600"),
      DailyGoal("4", "Lines of Code", 500.0, 367.0, "lines", "Code",
        "bg-gradient-to-r from-orange-400 to-orange-600")
    ]

  /** The `productivityMetrics` fixture. */
  const ProductivityMetrics: seq<ProductivityMetric> :=
    [
      ProductivityMetric("2025-01-01", 5, 6.0, 72),
      ProductivityMetric("2025-01-02", 8, 7.0, 85),
      ProductivityMetric("2025-01-03", 6, 5.0, 78),
      ProductivityMetric("2025-01-04", 10, 8.0, 92),
      ProductivityMetric("2025-01-05", 3, 4.0, 65),
      ProductivityMetric("2025-01-06", 7, 6.5, 80),
      ProductivityMetric("2025-01-07", 9, 7.5, 88),
      ProductivityMetric("2025-01-08", 4, 5.0, 70),
      ProductivityMetric("2025-01-09", 11, 8.5, 95),
      ProductivityMetric("2025-01-10", 6, 6.0, 76)
    ]
}
